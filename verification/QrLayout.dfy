/** Which modules of a symbol are function modules, and the zigzag order of the rest. */
module QrLayout {
  import opened QrCapacity

  function Size(ver: Version): nat { 4 * ver + 17 }

  predicate InGrid(ver: Version, x: int, y: int) {
    0 <= x < Size(ver) && 0 <= y < Size(ver)
  }

  // ---- function patterns ----

  /** `n` and `step` of alignmentPositions */
  function AlignmentCount(ver: Version): nat { ver / 7 + 2 }

  function AlignmentStep(ver: Version): nat {
    (4 * ver + 4 + (2 * AlignmentCount(ver) - 2) - 1) / (2 * AlignmentCount(ver) - 2) * 2
  }

  /** The k-th position from the far end. */
  function FromFarEnd(ver: Version, k: nat): int {
    if k == 0 then Size(ver) - 7 else FromFarEnd(ver, k - 1) - AlignmentStep(ver)
  }

  function AlignmentPositions(ver: Version): (p: seq<int>) {
    if ver == 1 then []
    else
      var n := AlignmentCount(ver);
      [6] + seq(n - 1, i requires 0 <= i < n - 1 => FromFarEnd(ver, n - 2 - i))
  }

  method ComputeAlignmentPositions(ver: Version) returns (out: seq<int>)
    ensures out == AlignmentPositions(ver)
  {
    hide AlignmentStep;
    if ver == 1 {
      return [];
    }
    var n := AlignmentCount(ver);
    var step := AlignmentStep(ver);
    out := [6];
    var pos := Size(ver) - 7;
    while |out| < n
      invariant 1 <= |out| <= n && out[0] == 6
      invariant pos == FromFarEnd(ver, |out| - 1)
      invariant forall i :: 1 <= i < |out| ==> out[i] == FromFarEnd(ver, |out| - 1 - i)
    {
      out := out[..1] + [pos] + out[1..];
      pos := pos - step;
    }
  }

  /** Table E.1 of ISO/IEC 18004. */
  lemma AlignmentTable(ver: Version)
    ensures AlignmentPositions(ver) ==
            if ver == 1 then []
            else if ver < 7 then [6, 4 * ver + 10]
            else [6, 2 * ver + 8, 4 * ver + 10]
  {
    hide AlignmentStep;
    assert FromFarEnd(ver, 0) == Size(ver) - 7;
    if ver >= 7 {
      StepOfThree(ver);
      assert FromFarEnd(ver, 1) == FromFarEnd(ver, 0) - AlignmentStep(ver);
    }
  }

  lemma StepOfThree(ver: Version)
    requires ver >= 7
    ensures AlignmentStep(ver) == 2 * ver + 2
  {
    assert AlignmentCount(ver) == 3;
    assert (4 * ver + 7) / 4 == ver + 1;
  }

  predicate Near(c: int, v: int, r: int) { c - r <= v <= c + r }

  predicate Timing(x: int, y: int) { x == 6 || y == 6 }

  predicate Finder(ver: Version, x: int, y: int) {
    || (Near(3, x, 4) && Near(3, y, 4))
    || (Near(Size(ver) - 4, x, 4) && Near(3, y, 4))
    || (Near(3, x, 4) && Near(Size(ver) - 4, y, 4))
  }

  /** Alignment pattern (i, j) is drawn unless a finder pattern is there. */
  predicate AlignmentDrawn(n: int, i: int, j: int) {
    !((i == 0 && j == 0) || (i == 0 && j == n - 1) || (i == n - 1 && j == 0))
  }

  predicate AlignmentAt(al: seq<int>, i: int, j: int, x: int, y: int)
    requires 0 <= i < |al| && 0 <= j < |al|
  {
    AlignmentDrawn(|al|, i, j) && Near(al[i], x, 2) && Near(al[j], y, 2)
  }

  predicate Alignment(ver: Version, x: int, y: int) {
    var al := AlignmentPositions(ver);
    exists i, j :: 0 <= i < |al| && 0 <= j < |al| && AlignmentAt(al, i, j, x, y)
  }

  /** The modules drawFormat writes: two copies of 15 bits and the dark module. */
  predicate Format(ver: Version, x: int, y: int) {
    || (x == 8 && ((0 <= y <= 8 && y != 6) || Size(ver) - 8 <= y < Size(ver)))
    || (y == 8 && ((0 <= x <= 8 && x != 6) || Size(ver) - 8 <= x < Size(ver)))
  }

  predicate VersionInfo(ver: Version, x: int, y: int) {
    && ver >= 7
    && ((Size(ver) - 11 <= x <= Size(ver) - 9 && 0 <= y <= 5)
        || (Size(ver) - 11 <= y <= Size(ver) - 9 && 0 <= x <= 5))
  }

  predicate IsFn(ver: Version, x: int, y: int) {
    Timing(x, y) || Finder(ver, x, y) || Alignment(ver, x, y) || Format(ver, x, y) || VersionInfo(ver, x, y)
  }

  // ---- how many modules are left ----

  ghost function Rect(x0: int, y0: int, w: nat, h: nat): (s: set<(int, int)>) {
    set x, y | x0 <= x < x0 + w && y0 <= y < y0 + h :: (x, y)
  }

  lemma InRect(x0: int, y0: int, w: nat, h: nat)
    ensures forall p :: p in Rect(x0, y0, w, h) <==> x0 <= p.0 < x0 + w && y0 <= p.1 < y0 + h
  {
    forall p: (int, int)
      ensures p in Rect(x0, y0, w, h) <==> x0 <= p.0 < x0 + w && y0 <= p.1 < y0 + h
    {
      assert p == (p.0, p.1);
    }
  }

  /** Two separate parts. */
  lemma UnionSize(a: set<(int, int)>, b: set<(int, int)>)
    requires forall p :: p in a ==> p !in b
    ensures |a + b| == |a| + |b|
  {
    assert a !! b;
  }

  /** A set made of a rectangle and the rest. */
  lemma AddRect(s: set<(int, int)>, rest: set<(int, int)>, x0: int, y0: int, w: nat, h: nat)
    requires forall p :: p in rest ==> !(x0 <= p.0 < x0 + w && y0 <= p.1 < y0 + h)
    requires forall p :: p in s <==> p in rest || (x0 <= p.0 < x0 + w && y0 <= p.1 < y0 + h)
    ensures |s| == |rest| + w * h
  {
    hide Rect;
    InRect(x0, y0, w, h);
    RectSize(x0, y0, w, h);
    assert s == rest + Rect(x0, y0, w, h);
    UnionSize(rest, Rect(x0, y0, w, h));
  }

  lemma {:induction false} RectColumn(x0: int, y0: int, h: nat)
    ensures |Rect(x0, y0, 1, h)| == h
  {
    if h > 0 {
      RectColumn(x0, y0, h - 1);
      assert Rect(x0, y0, 1, h) == Rect(x0, y0, 1, h - 1) + {(x0, y0 + h - 1)};
    } else {
      assert Rect(x0, y0, 1, 0) == {};
    }
  }

  lemma RectGrow(x0: int, y0: int, w: nat, h: nat)
    requires w > 0
    ensures |Rect(x0, y0, w, h)| == |Rect(x0, y0, w - 1, h)| + |Rect(x0 + w - 1, y0, 1, h)|
  {
    assert Rect(x0, y0, w, h) == Rect(x0, y0, w - 1, h) + Rect(x0 + w - 1, y0, 1, h);
    assert Rect(x0, y0, w - 1, h) !! Rect(x0 + w - 1, y0, 1, h);
  }

  lemma {:induction false} RectSize(x0: int, y0: int, w: nat, h: nat)
    ensures |Rect(x0, y0, w, h)| == w * h
  {
    if w > 0 {
      hide Rect;
      RectGrow(x0, y0, w, h);
      RectSize(x0, y0, w - 1, h);
      RectColumn(x0 + w - 1, y0, h);
    } else {
      assert Rect(x0, y0, 0, h) == {};
    }
  }

  ghost function FreeSet(ver: Version): set<(int, int)> {
    set x, y | 0 <= x < Size(ver) && 0 <= y < Size(ver) && !IsFn(ver, x, y) :: (x, y)
  }

  /** Alignment patterns written out: none, one, or six. */
  lemma AlignmentIs(ver: Version, x: int, y: int)
    ensures Alignment(ver, x, y) <==>
      var m, e := 2 * ver + 8, 4 * ver + 10;
      || (ver >= 2 && Near(e, x, 2) && Near(e, y, 2))
      || (ver >= 7 && (|| (Near(m, x, 2) && (Near(6, y, 2) || Near(m, y, 2) || Near(e, y, 2)))
                       || (Near(m, y, 2) && (Near(6, x, 2) || Near(e, x, 2)))))
  {
    AlignmentTable(ver);
    hide AlignmentPositions;
    var al := AlignmentPositions(ver);
    var m, e := 2 * ver + 8, 4 * ver + 10;
    if ver >= 2 && Near(e, x, 2) && Near(e, y, 2) {
      assert AlignmentAt(al, |al| - 1, |al| - 1, x, y);
    }
    if ver >= 7 {
      assert Near(m, x, 2) && Near(6, y, 2) ==> AlignmentAt(al, 1, 0, x, y);
      assert Near(m, x, 2) && Near(m, y, 2) ==> AlignmentAt(al, 1, 1, x, y);
      assert Near(m, x, 2) && Near(e, y, 2) ==> AlignmentAt(al, 1, 2, x, y);
      assert Near(6, x, 2) && Near(m, y, 2) ==> AlignmentAt(al, 0, 1, x, y);
      assert Near(e, x, 2) && Near(m, y, 2) ==> AlignmentAt(al, 2, 1, x, y);
    }
  }

  /** The function modules that every version has. */
  predicate BaseFn(ver: Version, x: int, y: int) {
    var n := Size(ver);
    || (x <= 8 && y <= 8)
    || (x >= n - 8 && y <= 8)
    || (x <= 8 && y >= n - 8)
    || x == 6 || y == 6
  }

  lemma BaseIs(ver: Version, x: int, y: int)
    requires InGrid(ver, x, y)
    ensures Timing(x, y) || Finder(ver, x, y) || Format(ver, x, y) <==> BaseFn(ver, x, y)
  {
  }

  ghost function BaseSet(ver: Version): set<(int, int)> {
    set x, y | 0 <= x < Size(ver) && 0 <= y < Size(ver) && BaseFn(ver, x, y) :: (x, y)
  }

  /** The three corners: finder patterns with the format information around them. */
  ghost function CornerSet(ver: Version): set<(int, int)> {
    set x, y | 0 <= x < Size(ver) && 0 <= y < Size(ver)
               && ((x <= 8 && (y <= 8 || Size(ver) - 8 <= y)) || (y <= 8 && Size(ver) - 8 <= x)) :: (x, y)
  }

  lemma CornerSize(ver: Version)
    ensures |CornerSet(ver)| == 225
  {
    var n := Size(ver);
    var a := set x, y | 0 <= x <= 8 && 0 <= y <= 8 :: (x, y);
    var b := set x, y | 0 <= x < n && 0 <= y <= 8 && (x <= 8 || n - 8 <= x) :: (x, y);
    AddRect(a, {}, 0, 0, 9, 9);
    AddRect(b, a, n - 8, 0, 8, 9);
    AddRect(CornerSet(ver), b, 0, n - 8, 9, 8);
  }

  lemma BaseSize(ver: Version)
    ensures |BaseSet(ver)| == 225 + 2 * (Size(ver) - 17)
  {
    var n := Size(ver);
    var d := set x, y | 0 <= x < n && 0 <= y < n
                        && ((x <= 8 && (y <= 8 || n - 8 <= y)) || (y <= 8 && n - 8 <= x) || y == 6) :: (x, y);
    CornerSize(ver);
    AddRect(d, CornerSet(ver), 9, 6, n - 17, 1);
    AddRect(BaseSet(ver), d, 6, 9, 1, n - 17);
  }

  /** The function modules beyond those of every version: alignment patterns off
      the timing lines, and version information. */
  ghost function ExtraSet(ver: Version): set<(int, int)> {
    set x, y | 0 <= x < Size(ver) && 0 <= y < Size(ver) && !BaseFn(ver, x, y)
               && (Alignment(ver, x, y) || VersionInfo(ver, x, y)) :: (x, y)
  }

  lemma ExtraSizeSmall(ver: Version)
    requires ver < 7
    ensures |ExtraSet(ver)| == if ver == 1 then 0 else 25
  {
    hide Alignment;
    forall x, y
      ensures Alignment(ver, x, y) <==> ver >= 2 && Near(4 * ver + 10, x, 2) && Near(4 * ver + 10, y, 2)
    {
      AlignmentIs(ver, x, y);
    }
    var e := 4 * ver + 10;
    if ver == 1 {
      assert ExtraSet(ver) == {};
    } else {
      RectSize(e - 2, e - 2, 5, 5);
      assert ExtraSet(ver) == Rect(e - 2, e - 2, 5, 5);
    }
  }

  lemma ExtraIs(ver: Version, x: int, y: int)
    requires ver >= 7 && InGrid(ver, x, y)
    ensures var n, m, e := Size(ver), 2 * ver + 8, 4 * ver + 10;
      !BaseFn(ver, x, y) && (Alignment(ver, x, y) || VersionInfo(ver, x, y)) <==>
      || (Near(m, x, 2) && (4 <= y <= 5 || 7 <= y <= 8))
      || (Near(m, y, 2) && (4 <= x <= 5 || 7 <= x <= 8))
      || (Near(m, x, 2) && Near(m, y, 2))
      || (Near(m, x, 2) && Near(e, y, 2))
      || (Near(e, x, 2) && Near(m, y, 2))
      || (Near(e, x, 2) && Near(e, y, 2))
      || (n - 11 <= x <= n - 9 && 0 <= y <= 5)
      || (n - 11 <= y <= n - 9 && 0 <= x <= 5)
  {
    hide Alignment;
    AlignmentIs(ver, x, y);
  }

  /** Alignment patterns with centre row 2v + 8 or 4v + 10, columns alike. */
  ghost function CentreSet(ver: Version): set<(int, int)> {
    set x, y | 9 <= x < Size(ver) && 9 <= y < Size(ver)
               && (Near(2 * ver + 8, x, 2) || Near(4 * ver + 10, x, 2))
               && (Near(2 * ver + 8, y, 2) || Near(4 * ver + 10, y, 2)) :: (x, y)
  }

  ghost function CentreColumn(ver: Version, c: int): set<(int, int)> {
    set x, y | c - 2 <= x <= c + 2 && 2 * ver + 6 <= y <= 4 * ver + 12
               && (Near(2 * ver + 8, y, 2) || Near(4 * ver + 10, y, 2)) :: (x, y)
  }

  lemma CentreColumnSize(ver: Version, c: int)
    requires ver >= 7
    ensures |CentreColumn(ver, c)| == 50
  {
    var m, e := 2 * ver + 8, 4 * ver + 10;
    var a := set x, y | c - 2 <= x <= c + 2 && m - 2 <= y <= m + 2 :: (x, y);
    AddRect(a, {}, c - 2, m - 2, 5, 5);
    AddRect(CentreColumn(ver, c), a, c - 2, e - 2, 5, 5);
  }

  lemma CentreSize(ver: Version)
    requires ver >= 7
    ensures |CentreSet(ver)| == 100
  {
    var m, e := 2 * ver + 8, 4 * ver + 10;
    CentreColumnSize(ver, m);
    CentreColumnSize(ver, e);
    UnionSize(CentreColumn(ver, m), CentreColumn(ver, e));
    assert CentreSet(ver) == CentreColumn(ver, m) + CentreColumn(ver, e);
  }

  /** Above the centre: an alignment pattern without its timing row, and a version block. */
  ghost function TopSet(ver: Version): set<(int, int)> {
    set x, y | 0 <= x < Size(ver) && 0 <= y <= 8
               && ((Near(2 * ver + 8, x, 2) && 4 <= y && y != 6)
                   || (Size(ver) - 11 <= x <= Size(ver) - 9 && y <= 5)) :: (x, y)
  }

  lemma TopSize(ver: Version)
    requires ver >= 7
    ensures |TopSet(ver)| == 38
  {
    var n, m := Size(ver), 2 * ver + 8;
    TopCentreSize(m);
    AddRect(TopSet(ver), TopCentre(m), n - 11, 0, 3, 6);
  }

  /** The alignment pattern at (m, 6) without its timing row. */
  ghost function TopCentre(m: int): set<(int, int)> {
    set x, y | m - 2 <= x <= m + 2 && 4 <= y <= 8 && y != 6 :: (x, y)
  }

  lemma TopCentreSize(m: int)
    ensures |TopCentre(m)| == 20
  {
    var a := set x, y | m - 2 <= x <= m + 2 && 4 <= y <= 5 :: (x, y);
    AddRect(a, {}, m - 2, 4, 5, 2);
    AddRect(TopCentre(m), a, m - 2, 7, 5, 2);
  }

  ghost function LeftSet(ver: Version): set<(int, int)> {
    set x, y | 0 <= y < Size(ver) && 0 <= x <= 8
               && ((Near(2 * ver + 8, y, 2) && 4 <= x && x != 6)
                   || (Size(ver) - 11 <= y <= Size(ver) - 9 && x <= 5)) :: (x, y)
  }

  lemma LeftSize(ver: Version)
    requires ver >= 7
    ensures |LeftSet(ver)| == 38
  {
    var n, m := Size(ver), 2 * ver + 8;
    LeftCentreSize(m);
    AddRect(LeftSet(ver), LeftCentre(m), 0, n - 11, 6, 3);
  }

  /** The alignment pattern at (6, m) without its timing column. */
  ghost function LeftCentre(m: int): set<(int, int)> {
    set x, y | m - 2 <= y <= m + 2 && 4 <= x <= 8 && x != 6 :: (x, y)
  }

  lemma LeftCentreSize(m: int)
    ensures |LeftCentre(m)| == 20
  {
    var a := set x, y | m - 2 <= y <= m + 2 && 4 <= x <= 5 :: (x, y);
    AddRect(a, {}, 4, m - 2, 2, 5);
    AddRect(LeftCentre(m), a, 7, m - 2, 2, 5);
  }

  lemma ExtraParts(ver: Version)
    requires ver >= 7
    ensures ExtraSet(ver) == TopSet(ver) + LeftSet(ver) + CentreSet(ver)
  {
    hide Alignment, VersionInfo, BaseFn;
    forall x, y | InGrid(ver, x, y)
      ensures (x, y) in ExtraSet(ver) <==> (x, y) in TopSet(ver) + LeftSet(ver) + CentreSet(ver)
    {
      ExtraIs(ver, x, y);
    }
  }

  lemma PartsApart(ver: Version)
    requires ver >= 7
    ensures TopSet(ver) !! LeftSet(ver) && TopSet(ver) + LeftSet(ver) !! CentreSet(ver)
  {
  }

  lemma ExtraSizeLarge(ver: Version)
    requires ver >= 7
    ensures |ExtraSet(ver)| == 176
  {
    hide ExtraSet, TopSet, LeftSet, CentreSet;
    CentreSize(ver);
    TopSize(ver);
    LeftSize(ver);
    ExtraParts(ver);
    PartsApart(ver);
    UnionSize(TopSet(ver), LeftSet(ver));
    UnionSize(TopSet(ver) + LeftSet(ver), CentreSet(ver));
  }

  /** The modules left for data number exactly rawModules(ver). */
  lemma FreeCount(ver: Version)
    ensures |FreeSet(ver)| == RawModules(ver)
  {
    hide Alignment, VersionInfo, BaseFn, Timing, Finder, Format;
    var n := Size(ver);
    var all := Rect(0, 0, n, n);
    RectSize(0, 0, n, n);
    BaseSize(ver);
    if ver < 7 { ExtraSizeSmall(ver); } else { ExtraSizeLarge(ver); }
    forall x, y | InGrid(ver, x, y)
      ensures (x, y) in FreeSet(ver) <==> (x, y) in all - BaseSet(ver) - ExtraSet(ver)
    {
      BaseIs(ver, x, y);
    }
    assert FreeSet(ver) == all - BaseSet(ver) - ExtraSet(ver);
    assert BaseSet(ver) <= all && ExtraSet(ver) <= all && BaseSet(ver) !! ExtraSet(ver);
    assert |all - BaseSet(ver)| == |all| - |BaseSet(ver)|;
    assert ExtraSet(ver) <= all - BaseSet(ver);
    CountArithmetic(ver);
  }

  lemma CountArithmetic(ver: Version)
    ensures Size(ver) * Size(ver) - (225 + 2 * (Size(ver) - 17))
            - (if ver == 1 then 0 else if ver < 7 then 25 else 176) == RawModules(ver)
  {
    Table(ver);
    assert ver == 1 || ver == 2 || ver == 3 || ver == 4 || ver == 5
        || ver == 6 || ver == 7 || ver == 8 || ver == 9 || ver == 10;
  }

  // ---- the zigzag ----

  /** The column pairs of the placement loop, right to left; column 6 is skipped. */
  function Pairs(ver: Version): nat { 2 * ver + 8 }

  /** `right` in round c */
  function Right(ver: Version, c: nat): int {
    var r := Size(ver) - 1 - 2 * c;
    if r > 6 then r else r - 1
  }

  /** `((right + 1) & 2) === 0` */
  predicate Upward(right: int) { (right + 1) % 4 < 2 }

  /** The s-th module visited in round c. */
  function Cell(ver: Version, c: nat, s: nat): (int, int) {
    var right, vert := Right(ver, c), s / 2;
    (right - s % 2, if Upward(right) then Size(ver) - 1 - vert else vert)
  }

  /** Round and place in the round of module (x, y). */
  function RightOf(x: int): int { if x > 6 then x + x % 2 else x + 1 - x % 2 }

  function RoundOf(ver: Version, x: int): int {
    (Size(ver) - 1 - (if x > 6 then RightOf(x) else RightOf(x) + 1)) / 2
  }

  function StepOf(ver: Version, x: int, y: int): int {
    2 * (if Upward(RightOf(x)) then Size(ver) - 1 - y else y) + RightOf(x) - x
  }

  /** The zigzag visits modules of the grid outside column 6 ... */
  lemma ZigzagInside(ver: Version, c: nat, s: nat)
    requires c < Pairs(ver) && s < 2 * Size(ver)
    ensures var p := Cell(ver, c, s);
            && InGrid(ver, p.0, p.1) && p.0 != 6
            && RoundOf(ver, p.0) == c && StepOf(ver, p.0, p.1) == s
  {
    hide Upward;
    var r, right := Size(ver) - 1 - 2 * c, Right(ver, c);
    var x := right - s % 2;
    if r > 6 {
      assert r % 2 == 0;
    } else {
      assert right % 2 == 1;
    }
    assert RightOf(x) == right;
  }

  /** ... and each of them. */
  lemma ZigzagCovers(ver: Version, x: int, y: int)
    requires InGrid(ver, x, y) && x != 6
    ensures 0 <= RoundOf(ver, x) < Pairs(ver) && 0 <= StepOf(ver, x, y) < 2 * Size(ver)
    ensures Cell(ver, RoundOf(ver, x), StepOf(ver, x, y)) == (x, y)
  {
    hide Upward;
    var right, c := RightOf(x), RoundOf(ver, x);
    assert x <= right <= x + 1;
    assert Right(ver, c) == right by {
      if x > 6 {
        assert (Size(ver) - 1 - right) % 2 == 0;
      } else {
        assert (Size(ver) - 2 - right) % 2 == 0;
      }
    }
  }

  // ---- the modules that carry data, in zigzag order ----

  /** Free modules among round 0 .. c-1 and the first s steps of round c. */
  ghost function Visited(ver: Version, c: nat, s: nat): (f: seq<(int, int)>)
    decreases c, s
  {
    if s > 0 then
      var p := Cell(ver, c, s - 1);
      Visited(ver, c, s - 1) + (if IsFn(ver, p.0, p.1) then [] else [p])
    else if c > 0 then Visited(ver, c - 1, 2 * Size(ver))
    else []
  }

  ghost function FreeCells(ver: Version): (f: seq<(int, int)>) { Visited(ver, Pairs(ver), 0) }

  predicate Before(c: int, s: int, c': int, s': int) { c < c' || (c == c' && s < s') }

  ghost predicate VisitedIs(ver: Version, c: nat, s: nat, p: (int, int)) {
    && InGrid(ver, p.0, p.1) && !IsFn(ver, p.0, p.1)
    && Before(RoundOf(ver, p.0), StepOf(ver, p.0, p.1), c, s)
  }

  lemma NextVisited(ver: Version, c: nat, s: nat, p: (int, int))
    requires c < Pairs(ver) && s < 2 * Size(ver)
    ensures VisitedIs(ver, c, s + 1, p) <==>
            VisitedIs(ver, c, s, p) || (p == Cell(ver, c, s) && !IsFn(ver, p.0, p.1))
  {
    hide IsFn, Cell, RoundOf, StepOf;
    ZigzagInside(ver, c, s);
    if InGrid(ver, p.0, p.1) && !IsFn(ver, p.0, p.1) {
      NotColumnSix(ver, p.0, p.1);
      ZigzagCovers(ver, p.0, p.1);
    }
  }

  lemma NotColumnSix(ver: Version, x: int, y: int)
    requires !IsFn(ver, x, y)
    ensures x != 6
  {
  }

  lemma NextRound(ver: Version, c: nat, p: (int, int))
    requires c < Pairs(ver)
    ensures VisitedIs(ver, c + 1, 0, p) <==> VisitedIs(ver, c, 2 * Size(ver), p)
  {
    hide IsFn, Cell, RoundOf, StepOf;
    if InGrid(ver, p.0, p.1) && !IsFn(ver, p.0, p.1) {
      NotColumnSix(ver, p.0, p.1);
      ZigzagCovers(ver, p.0, p.1);
    }
  }

  ghost predicate NoRepeats(f: seq<(int, int)>) {
    forall i, j :: 0 <= i < j < |f| ==> f[i] != f[j]
  }

  /** What has been visited, without repetition. */
  lemma {:induction false} VisitedExactly(ver: Version, c: nat, s: nat)
    requires (c < Pairs(ver) && s <= 2 * Size(ver)) || (c == Pairs(ver) && s == 0)
    ensures forall p :: p in Visited(ver, c, s) <==> VisitedIs(ver, c, s, p)
    ensures NoRepeats(Visited(ver, c, s))
    decreases c, s
  {
    hide IsFn, Cell, VisitedIs;
    if s > 0 {
      VisitedExactly(ver, c, s - 1);
      forall p: (int, int)
        ensures p in Visited(ver, c, s) <==> VisitedIs(ver, c, s, p)
      {
        NextVisited(ver, c, s - 1, p);
      }
      CellFresh(ver, c, s - 1);
    } else if c > 0 {
      VisitedExactly(ver, c - 1, 2 * Size(ver));
      forall p: (int, int)
        ensures p in Visited(ver, c, s) <==> VisitedIs(ver, c, s, p)
      {
        NextRound(ver, c - 1, p);
      }
    } else {
      forall p: (int, int)
        ensures !VisitedIs(ver, 0, 0, p)
      {
        NothingBefore(ver, p);
      }
    }
  }

  lemma NothingBefore(ver: Version, p: (int, int))
    ensures !VisitedIs(ver, 0, 0, p)
  {
    hide IsFn;
    if InGrid(ver, p.0, p.1) && !IsFn(ver, p.0, p.1) {
      NotColumnSix(ver, p.0, p.1);
      ZigzagCovers(ver, p.0, p.1);
    }
  }

  lemma CellFresh(ver: Version, c: nat, s: nat)
    requires c < Pairs(ver) && s < 2 * Size(ver)
    ensures !VisitedIs(ver, c, s, Cell(ver, c, s))
  {
    hide IsFn, Cell, RoundOf, StepOf;
    ZigzagInside(ver, c, s);
  }

  ghost predicate InOrder(ver: Version, f: seq<(int, int)>) {
    forall i, j :: 0 <= i < j < |f| ==>
      Before(RoundOf(ver, f[i].0), StepOf(ver, f[i].0, f[i].1), RoundOf(ver, f[j].0), StepOf(ver, f[j].0, f[j].1))
  }

  /** The modules come round by round and step by step. */
  lemma {:induction false} VisitedInOrder(ver: Version, c: nat, s: nat)
    requires (c < Pairs(ver) && s <= 2 * Size(ver)) || (c == Pairs(ver) && s == 0)
    ensures InOrder(ver, Visited(ver, c, s))
    decreases c, s
  {
    hide IsFn, Cell, RoundOf, StepOf;
    if s > 0 {
      VisitedInOrder(ver, c, s - 1);
      VisitedExactly(ver, c, s - 1);
      ZigzagInside(ver, c, s - 1);
      var f, p := Visited(ver, c, s - 1), Cell(ver, c, s - 1);
      forall i | 0 <= i < |f|
        ensures Before(RoundOf(ver, f[i].0), StepOf(ver, f[i].0, f[i].1), c, s - 1)
      {
        assert f[i] in f;
      }
    } else if c > 0 {
      VisitedInOrder(ver, c - 1, 2 * Size(ver));
    }
  }

  lemma {:induction false} SeqSetSize(f: seq<(int, int)>)
    requires NoRepeats(f)
    ensures |set p | p in f| == |f|
  {
    if f != [] {
      var n := |f| - 1;
      SeqSetSize(f[..n]);
      assert (set p | p in f) == (set p | p in f[..n]) + {f[n]};
    } else {
      assert (set p | p in f) == {};
    }
  }

  /** The data modules: every free module once, rawModules(ver) of them. */
  lemma FreeCellsExact(ver: Version)
    ensures NoRepeats(FreeCells(ver))
    ensures forall p :: p in FreeCells(ver) <==> InGrid(ver, p.0, p.1) && !IsFn(ver, p.0, p.1)
    ensures |FreeCells(ver)| == RawModules(ver)
  {
    hide IsFn, RoundOf, StepOf;
    VisitedExactly(ver, Pairs(ver), 0);
    var f := FreeCells(ver);
    forall p: (int, int)
      ensures p in f <==> InGrid(ver, p.0, p.1) && !IsFn(ver, p.0, p.1)
    {
      if InGrid(ver, p.0, p.1) && !IsFn(ver, p.0, p.1) {
        NotColumnSix(ver, p.0, p.1);
        ZigzagCovers(ver, p.0, p.1);
      }
    }
    FreeCount(ver);
    SeqSetSize(f);
    forall p: (int, int)
      ensures p in FreeSet(ver) <==> p in f
    {
      assert p == (p.0, p.1);
    }
    assert FreeSet(ver) == set p | p in f;
  }
}
