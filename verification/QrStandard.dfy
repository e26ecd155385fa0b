/** What a scanner expects of a symbol, stated by tables and pictures of ISO/IEC 18004 instead
    of the encoder's formulas, and proved to be what the formulas give. */
module QrStandard {
  import opened Bits
  import opened Gf256
  import opened QrCapacity
  import opened QrLayout
  import opened QrInfo
  import M = QrMatrix

  // ---- the eight mask patterns of section 7.8.2 ----

  /** The top left rows of a pattern; it repeats downwards, and every six columns to the right.
      '#' is a module that is flipped. */
  function Tile(mask: nat): (t: seq<string>)
    requires mask < 8
    ensures |t| > 0 && forall v :: 0 <= v < |t| ==> |t[v]| == 6
  {
    match mask
    case 0 => ["#.#.#.", ".#.#.#"]
    case 1 => ["######", "......"]
    case 2 => ["#..#.."]
    case 3 => ["#..#..", "..#..#", ".#..#."]
    case 4 => ["###...", "###...", "...###", "...###"]
    case 5 => ["######", "#.....", "#..#..", "#.#.#.", "#..#..", "#....."]
    case 6 => ["######", "###...", "##.##.", "#.#.#.", "#.##.#", "#...##"]
    case _ => ["#.#.#.", "...###", "#...##", ".#.#.#", "###...", ".###.."]
  }

  predicate Pattern(mask: nat, x: nat, y: nat)
    requires mask < 8
  {
    var t := Tile(mask);
    t[y % |t|][x % 6] == '#'
  }

  // Only residues of x and y matter: modulo 2 and 3, and of x / 3 and y / 2 modulo 2.

  function Three(b: nat, d: nat): nat { if b == 0 || d == 0 then 0 else if b == d then 1 else 2 }

  lemma Distribute(x: nat, y: nat, m: nat)
    requires x >= m
    ensures x * y == (x - m) * y + m * y
  {
  }

  lemma TwoLess(p: nat, q: nat, y: nat)
    requires p == q + 2 * y
    ensures p % 2 == q % 2
  {
  }

  lemma ThreeLess(p: nat, q: nat, y: nat)
    requires p == q + 3 * y
    ensures p % 3 == q % 3
  {
  }

  lemma {:induction false} ProductMod2(x: nat, y: nat)
    ensures (x * y) % 2 == if x % 2 == 1 && y % 2 == 1 then 1 else 0
  {
    if x >= 2 {
      ProductMod2(x - 2, y);
      Distribute(x, y, 2);
      TwoLess(x * y, (x - 2) * y, y);
    } else if x == 1 {
      assert x * y == y;
    }
  }

  lemma {:induction false} ProductMod3(x: nat, y: nat)
    ensures (x * y) % 3 == Three(x % 3, y % 3)
  {
    hide Three;
    if x >= 3 {
      ProductMod3(x - 3, y);
      Distribute(x, y, 3);
      ThreeLess(x * y, (x - 3) * y, y);
    } else {
      FewTimes(x, y);
    }
  }

  lemma FewTimes(x: nat, y: nat)
    requires x < 3
    ensures (x * y) % 3 == Three(x, y % 3)
  {
    var k, v := y / 3, y % 3;
    if x == 1 {
      assert x * y == y;
    } else if x == 2 {
      assert x * y == 2 * v + 3 * (2 * k);
      ThreeLess(x * y, 2 * v, 2 * k);
    }
  }

  lemma SumMods(x: nat, y: nat)
    ensures (x + y) % 2 == 0 <==> x % 2 == y % 2
    ensures (x + y) % 3 == 0 <==> x % 3 + y % 3 == 0 || x % 3 + y % 3 == 3
  {
    TwoLess(x + y, x % 2 + y % 2, x / 2 + y / 2);
    ThreeLess(x + y, x % 3 + y % 3, x / 3 + y / 3);
  }

  lemma ModSix(x: nat)
    ensures x % 2 == x % 6 % 2 && x % 3 == x % 6 % 3 && x / 3 % 2 == x % 6 / 3
  {
  }

  lemma ModFour(y: nat)
    ensures y / 2 % 2 == y % 4 / 2
  {
  }

  lemma Mask0(x: nat, y: nat)
    ensures MaskBit(0, x, y) == Pattern(0, x, y)
  {
    SumMods(x, y);
    ModSix(x);
  }

  lemma Mask1(x: nat, y: nat)
    ensures MaskBit(1, x, y) == Pattern(1, x, y)
  {
  }

  lemma Mask2(x: nat, y: nat)
    ensures MaskBit(2, x, y) == Pattern(2, x, y)
  {
    ModSix(x);
  }

  lemma Mask3(x: nat, y: nat)
    ensures MaskBit(3, x, y) == Pattern(3, x, y)
  {
    SumMods(x, y);
    ModSix(x);
  }

  lemma Mask4(x: nat, y: nat)
    ensures MaskBit(4, x, y) == Pattern(4, x, y)
  {
    SumMods(x / 3, y / 2);
    ModSix(x);
    ModFour(y);
  }

  lemma Mask5(x: nat, y: nat)
    ensures MaskBit(5, x, y) == Pattern(5, x, y)
  {
    ProductMod2(x, y);
    ProductMod3(x, y);
    ModSix(x);
    ModSix(y);
  }

  lemma Tile6(u: nat, v: nat)
    requires u < 6 && v < 6
    ensures ((if u % 2 == 1 && v % 2 == 1 then 1 else 0) + Three(u % 3, v % 3)) % 2 == 0 <==> Tile(6)[v][u] == '#'
  {
    hide Tile, Three;
    if v < 3 {
      UpperTile6(u, v);
    } else {
      LowerTile6(u, v);
    }
  }

  lemma UpperTile6(u: nat, v: nat)
    requires u < 6 && v < 3
    ensures ((if u % 2 == 1 && v % 2 == 1 then 1 else 0) + Three(u % 3, v % 3)) % 2 == 0 <==> Tile(6)[v][u] == '#'
  {
  }

  lemma LowerTile6(u: nat, v: nat)
    requires u < 6 && 3 <= v < 6
    ensures ((if u % 2 == 1 && v % 2 == 1 then 1 else 0) + Three(u % 3, v % 3)) % 2 == 0 <==> Tile(6)[v][u] == '#'
  {
  }

  lemma Mask6(x: nat, y: nat)
    ensures MaskBit(6, x, y) == Pattern(6, x, y)
  {
    hide Three;
    ProductMod2(x, y);
    ProductMod3(x, y);
    ModSix(x);
    ModSix(y);
    Tile6(x % 6, y % 6);
    assert |Tile(6)| == 6;
  }

  lemma Tile7(u: nat, v: nat)
    requires u < 6 && v < 6
    ensures ((if u % 2 == v % 2 then 0 else 1) + Three(u % 3, v % 3)) % 2 == 0 <==> Tile(7)[v][u] == '#'
  {
    hide Tile, Three;
    if v < 3 {
      UpperTile7(u, v);
    } else {
      LowerTile7(u, v);
    }
  }

  lemma UpperTile7(u: nat, v: nat)
    requires u < 6 && v < 3
    ensures ((if u % 2 == v % 2 then 0 else 1) + Three(u % 3, v % 3)) % 2 == 0 <==> Tile(7)[v][u] == '#'
  {
  }

  lemma LowerTile7(u: nat, v: nat)
    requires u < 6 && 3 <= v < 6
    ensures ((if u % 2 == v % 2 then 0 else 1) + Three(u % 3, v % 3)) % 2 == 0 <==> Tile(7)[v][u] == '#'
  {
  }

  lemma Mask7(x: nat, y: nat)
    ensures MaskBit(7, x, y) == Pattern(7, x, y)
  {
    hide Three;
    SumMods(x, y);
    ProductMod3(x, y);
    ModSix(x);
    ModSix(y);
    Tile7(x % 6, y % 6);
    assert |Tile(7)| == 6;
  }

  /** The encoder's mask conditions draw exactly the standard's patterns. */
  lemma MaskIsPattern(mask: nat, x: nat, y: nat)
    requires mask < 8
    ensures MaskBit(mask, x, y) == Pattern(mask, x, y)
  {
    hide *;
    match mask
    case 0 => Mask0(x, y);
    case 1 => Mask1(x, y);
    case 2 => Mask2(x, y);
    case 3 => Mask3(x, y);
    case 4 => Mask4(x, y);
    case 5 => Mask5(x, y);
    case 6 => Mask6(x, y);
    case 7 => Mask7(x, y);
  }

  // ---- the order of the data modules of section 7.7.3 ----

  /** The column pair of x, counted from the right; column 6 belongs to none. */
  function Pair(ver: Version, x: int): int { if x > 6 then (Size(ver) - 1 - x) / 2 else (Size(ver) - 2 - x) / 2 }

  /** Column pairs from right to left, upwards in the first and then down and up in turn, and
      in each row the right module before the left. */
  predicate Precedes(ver: Version, p: (int, int), q: (int, int)) {
    var a, b := Pair(ver, p.0), Pair(ver, q.0);
    if a != b then a < b else if p.1 == q.1 then p.0 > q.0 else if a % 2 == 0 then p.1 > q.1 else p.1 < q.1
  }

  lemma EvenTurn(h: nat)
    ensures Upward(2 * h) <==> h % 2 == 0
    ensures Upward(2 * h + 1) <==> h % 2 == 1
  {
    var k, r := h / 2, h % 2;
    FourRest(k, 2 * r + 1);
    if r == 0 {
      FourRest(k, 2);
    } else {
      FourRest(k + 1, 0);
    }
  }

  lemma FourRest(k: nat, r: nat)
    requires r < 4
    ensures (4 * k + r) % 4 == r
  {
  }

  lemma RightTurn(ver: Version, x: int)
    requires 6 < x < Size(ver)
    ensures var h := (x + 1) / 2; RightOf(x) == 2 * h && RoundOf(ver, x) == Pair(ver, x) == 2 * ver + 8 - h
  {
    hide Upward;
  }

  lemma LeftTurn(ver: Version, x: int)
    requires 0 <= x < 6
    ensures var h := x / 2; RightOf(x) == 2 * h + 1 && RoundOf(ver, x) == Pair(ver, x) == 2 * ver + 7 - h
  {
    hide Upward;
  }

  lemma Turn(ver: Version, h: int)
    ensures (2 * ver + 8 - h) % 2 == 0 <==> h % 2 == 0
    ensures (2 * ver + 7 - h) % 2 == 0 <==> h % 2 == 1
  {
  }

  lemma UpwardInTurn(ver: Version, x: int)
    requires 0 <= x < Size(ver) && x != 6
    ensures RoundOf(ver, x) == Pair(ver, x) && (Upward(RightOf(x)) <==> Pair(ver, x) % 2 == 0)
    ensures x <= RightOf(x) <= x + 1
  {
    hide Upward, RoundOf, RightOf, Pair;
    if x > 6 {
      RightTurn(ver, x);
      EvenTurn((x + 1) / 2);
      Turn(ver, (x + 1) / 2);
    } else {
      LeftTurn(ver, x);
      EvenTurn(x / 2);
      Turn(ver, x / 2);
    }
  }

  lemma RoundsPrecede(ver: Version, p: (int, int), q: (int, int))
    requires InGrid(ver, p.0, p.1) && InGrid(ver, q.0, q.1) && p.0 != 6 && q.0 != 6
    requires Before(RoundOf(ver, p.0), StepOf(ver, p.0, p.1), RoundOf(ver, q.0), StepOf(ver, q.0, q.1))
    ensures Precedes(ver, p, q)
  {
    hide RoundOf, RightOf, Upward;
    UpwardInTurn(ver, p.0);
    UpwardInTurn(ver, q.0);
    SameRight(ver, p.0, q.0);
  }

  lemma SameRight(ver: Version, x: int, u: int)
    requires 0 <= x < Size(ver) && x != 6 && 0 <= u < Size(ver) && u != 6
    ensures RoundOf(ver, x) == RoundOf(ver, u) ==> RightOf(x) == RightOf(u)
  {
  }

  /** The modules are read in the standard's order; with FreeCellsExact that fixes which module
      carries which bit. */
  lemma DataOrder(ver: Version, i: nat, j: nat)
    requires i < j < |FreeCells(ver)|
    ensures Precedes(ver, FreeCells(ver)[i], FreeCells(ver)[j])
  {
    hide IsFn, Precedes, FreeCells, RoundOf, StepOf;
    FreeCellsExact(ver);
    FreeInOrder(ver);
    var p, q := FreeCells(ver)[i], FreeCells(ver)[j];
    assert p in FreeCells(ver) && q in FreeCells(ver);
    NotColumnSix(ver, p.0, p.1);
    NotColumnSix(ver, q.0, q.1);
    RoundsPrecede(ver, p, q);
  }

  lemma FreeInOrder(ver: Version)
    ensures InOrder(ver, FreeCells(ver))
  {
    hide IsFn, Visited, InOrder;
    VisitedInOrder(ver, Pairs(ver), 0);
  }

  // ---- the function patterns of section 6.3 ----

  /** A finder pattern with its separator, in the top left corner. */
  function CornerRow(v: int): (row: string)
    requires 0 <= v < 8
    ensures |row| == 8
  {
    match v
    case 0 => "#######."
    case 1 => "#.....#."
    case 2 => "#.###.#."
    case 3 => "#.###.#."
    case 4 => "#.###.#."
    case 5 => "#.....#."
    case 6 => "#######."
    case 7 => "........"
  }

  predicate CornerDark(u: int, v: int)
    requires 0 <= u < 8 && 0 <= v < 8
  {
    CornerRow(v)[u] == '#'
  }

  /** An alignment pattern. */
  function BullseyeRow(v: int): (row: string)
    requires 0 <= v < 5
    ensures |row| == 5
  {
    match v
    case 0 => "#####"
    case 1 => "#...#"
    case 2 => "#.#.#"
    case 3 => "#...#"
    case 4 => "#####"
  }

  predicate BullseyeDark(u: int, v: int)
    requires 0 <= u < 5 && 0 <= v < 5
  {
    BullseyeRow(v)[u] == '#'
  }

  /** Centres of the alignment patterns, from Table E.1. */
  function Centres(ver: Version): set<(int, int)> {
    var p, q := 2 * ver + 8, 4 * ver + 10;
    if ver == 1 then {} else if ver < 7 then {(q, q)} else {(6, p), (p, 6), (p, p), (p, q), (q, p), (q, q)}
  }

  /** (x, y) is in one of the three corners. */
  predicate InCorner(ver: Version, x: int, y: int) {
    var e := Size(ver) - 8;
    || (0 <= x < 8 && 0 <= y < 8) || (e <= x < e + 8 && 0 <= y < 8) || (0 <= x < 8 && e <= y < e + 8)
  }

  lemma CornerIsFinder(ver: Version, mask: nat, x: int, y: int)
    requires InCorner(ver, x, y)
    ensures IsFn(ver, x, y) && FnDark(ver, mask, x, y) == FinderDark(ver, x, y)
  {
    hide BitAt, FormatDark, VersionDark, FinderDark, AlignmentDark, AlignmentPositions;
    AlignmentTable(ver);
  }

  lemma CornerRings(ver: Version, u: int, v: int)
    requires 0 <= u < 8 && 0 <= v < 8
    ensures var e, d := Size(ver) - 1, Ring(3, 3, u, v);
      && FinderDark(ver, u, v) == (d != 2 && d != 4)
      && FinderDark(ver, e - u, v) == (d != 2 && d != 4)
      && FinderDark(ver, u, e - v) == (d != 2 && d != 4)
  {
  }

  lemma EdgeRow(u: int)
    requires 0 <= u < 8
    ensures "#######."[u] == '#' <==> u < 7
  {
  }

  lemma WallRow(u: int)
    requires 0 <= u < 8
    ensures "#.....#."[u] == '#' <==> u == 0 || u == 6
  {
  }

  lemma CoreRow(u: int)
    requires 0 <= u < 8
    ensures "#.###.#."[u] == '#' <==> u == 0 || u == 6 || 2 <= u <= 4
  {
  }

  lemma EmptyRow(u: int)
    requires 0 <= u < 8
    ensures "........"[u] != '#'
  {
  }

  lemma CornerPicture(u: int, v: int)
    requires 0 <= u < 8 && 0 <= v < 8
    ensures var d := Ring(3, 3, u, v); CornerDark(u, v) == (d != 2 && d != 4)
  {
    if v == 0 || v == 6 {
      EdgeRow(u);
    } else if v == 1 || v == 5 {
      WallRow(u);
    } else if v == 7 {
      EmptyRow(u);
    } else {
      CoreRow(u);
    }
  }

  lemma CornerPattern(ver: Version, mask: nat, u: int, v: int)
    requires 0 <= u < 8 && 0 <= v < 8
    ensures var e := Size(ver) - 1;
      && IsFn(ver, u, v) && FnDark(ver, mask, u, v) == CornerDark(u, v)
      && IsFn(ver, e - u, v) && FnDark(ver, mask, e - u, v) == CornerDark(u, v)
      && IsFn(ver, u, e - v) && FnDark(ver, mask, u, e - v) == CornerDark(u, v)
  {
    hide IsFn, FnDark, FinderDark, CornerDark, Ring;
    var e := Size(ver) - 1;
    CornerRings(ver, u, v);
    CornerPicture(u, v);
    CornerIsFinder(ver, mask, u, v);
    CornerIsFinder(ver, mask, e - u, v);
    CornerIsFinder(ver, mask, u, e - v);
  }

  lemma TimingPattern(ver: Version, mask: nat, i: int)
    requires 8 <= i < Size(ver) - 8
    ensures IsFn(ver, i, 6) && FnDark(ver, mask, i, 6) == (i % 2 == 0)
    ensures IsFn(ver, 6, i) && FnDark(ver, mask, 6, i) == (i % 2 == 0)
  {
    hide BitAt, FormatDark, VersionDark, AlignmentPositions;
    AlignmentTable(ver);
  }

  lemma BullseyePicture(u: int, v: int)
    requires 0 <= u < 5 && 0 <= v < 5
    ensures BullseyeDark(u, v) == (Ring(2, 2, u, v) != 1)
  {
  }

  lemma CentreIndex(ver: Version, c: (int, int)) returns (i: int, j: int)
    requires c in Centres(ver)
    ensures var al := AlignmentPositions(ver);
      0 <= i < |al| && 0 <= j < |al| && AlignmentDrawn(|al|, i, j) && al[i] == c.0 && al[j] == c.1
  {
    hide AlignmentPositions;
    AlignmentTable(ver);
    i := if c.0 == 6 then 0 else if c.0 == 4 * ver + 10 then |AlignmentPositions(ver)| - 1 else 1;
    j := if c.1 == 6 then 0 else if c.1 == 4 * ver + 10 then |AlignmentPositions(ver)| - 1 else 1;
  }

  lemma BullseyeApart(ver: Version, c: (int, int), x: int, y: int)
    requires c in Centres(ver) && Near(c.0, x, 2) && Near(c.1, y, 2)
    ensures InGrid(ver, x, y) && !Format(ver, x, y) && !VersionInfo(ver, x, y)
  {
  }

  lemma BullseyePattern(ver: Version, mask: nat, c: (int, int), u: int, v: int)
    requires c in Centres(ver) && 0 <= u < 5 && 0 <= v < 5
    ensures var x, y := c.0 - 2 + u, c.1 - 2 + v;
      InGrid(ver, x, y) && IsFn(ver, x, y) && FnDark(ver, mask, x, y) == BullseyeDark(u, v)
  {
    hide Format, VersionInfo, FormatDark, VersionDark, AlignmentPositions, AlignmentDark, BullseyeDark, Centres, Ring;
    var x, y := c.0 - 2 + u, c.1 - 2 + v;
    var i, j := CentreIndex(ver, c);
    assert AlignmentAt(AlignmentPositions(ver), i, j, x, y);
    M.AlignmentUnique(ver, i, j, x, y);
    BullseyeApart(ver, c, x, y);
    BullseyePicture(u, v);
    RingMoves(c, u, v);
  }

  lemma RingMoves(c: (int, int), u: int, v: int)
    ensures Ring(c.0, c.1, c.0 - 2 + u, c.1 - 2 + v) == Ring(2, 2, u, v)
  {
  }

  /** Bit i of the version information is in both places of section 7.10. */
  lemma VersionBits(ver: Version, mask: nat, i: nat)
    requires ver >= 7 && i < 18
    ensures var x, y := Size(ver) - 11 + i % 3, i / 3;
      && InGrid(ver, x, y) && IsFn(ver, x, y) && FnDark(ver, mask, x, y) == (BitAt(VersionWord(ver), i) == 1)
      && IsFn(ver, y, x) && FnDark(ver, mask, y, x) == (BitAt(VersionWord(ver), i) == 1)
  {
    hide BitAt, VersionWord, FormatDark, AlignmentDark, FinderDark;
  }

  lemma DarkModule(ver: Version, mask: nat)
    ensures IsFn(ver, 8, Size(ver) - 8) && FnDark(ver, mask, 8, Size(ver) - 8)
  {
    hide BitAt, FormatWord;
  }
}
