/** Format and version information, mask conditions, and the look of the function
    patterns. */
module QrInfo {
  import opened Bits
  import opened Gf256
  import opened QrCapacity
  import opened QrLayout
  import opened Wrappers

  // ---- the shift-register loops of drawFormat and of the version block ----

  /** `rem = (rem << 1) ^ ((rem >>> (deg - 1)) * g)`, n times from v */
  function BchRem(v: nat, n: nat, g: nat, deg: nat): nat
    requires deg > 0
  {
    if n == 0 then v
    else
      var rem := BchRem(v, n - 1, g, deg);
      Xor(2 * rem, Shr(rem, deg - 1) * g)
  }

  lemma PowStep(n: nat)
    ensures Pow2(n + 1) == 2 * Pow2(n) && Pow2(0) == 1
  {
  }

  lemma {:induction false} BchRemBound(v: nat, n: nat, g: nat, deg: nat)
    requires deg > 0 && v < Pow2(deg) && Pow2(deg) <= g < 2 * Pow2(deg)
    ensures BchRem(v, n, g, deg) < Pow2(deg)
  {
    hide Xor, Shr, Pow2;
    if n > 0 {
      BchRemBound(v, n - 1, g, deg);
      StepBound(BchRem(v, n - 1, g, deg), g, deg);
    }
  }

  lemma StepBound(rem: nat, g: nat, deg: nat)
    requires deg > 0 && rem < Pow2(deg) && Pow2(deg) <= g < 2 * Pow2(deg)
    ensures Shr(rem, deg - 1) < 2 && Xor(2 * rem, Shr(rem, deg - 1) * g) < Pow2(deg)
  {
    hide *;
    var p := Pow2(deg - 1);
    PowStep(deg - 1);
    if rem < p {
      ShrRange(rem, deg - 1, 0);
      XorZero(2 * rem);
    } else {
      ShrRange(rem, deg - 1, 1);
      XorHigh(2 * rem - 2 * p, g - 2 * p, deg);
      XorBound(2 * rem - 2 * p, g - 2 * p, deg);
    }
  }

  /** The loop takes multiples of g off v shifted left n places. */
  lemma {:induction false} BchRemDivides(v: nat, n: nat, g: nat, deg: nat) returns (q: nat)
    requires deg > 0 && v < Pow2(deg) && Pow2(deg) <= g < 2 * Pow2(deg)
    ensures Xor(v * Pow2(n), Carryless(g, q)) == BchRem(v, n, g, deg)
  {
    hide Xor, Shr, Pow2;
    if n == 0 {
      PowStep(0);
      XorZero(v);
      q := 0;
    } else {
      var p := BchRemDivides(v, n - 1, g, deg);
      var rem := BchRem(v, n - 1, g, deg);
      var t := Shr(rem, deg - 1);
      BchRemBound(v, n - 1, g, deg);
      StepBound(rem, g, deg);
      q := 2 * p + t;
      CarrylessDigit(g, p, t);
      ScaleStep(v, n - 1);
      StepDivides(v * Pow2(n - 1), Carryless(g, p), t * g);
    }
  }

  lemma ScaleStep(v: nat, n: nat)
    ensures v * Pow2(n + 1) == 2 * (v * Pow2(n))
  {
    var p := Pow2(n);
    assert Pow2(n + 1) == 2 * p;
    assert v * (2 * p) == 2 * (v * p);
  }

  lemma StepDivides(w: nat, c: nat, m: nat)
    ensures Xor(2 * w, Xor(2 * c, m)) == Xor(2 * Xor(w, c), m)
  {
    hide *;
    XorDouble(w, c);
    XorAssoc(2 * w, 2 * c, m);
  }

  /** Data followed by its remainder is a multiple of g: a BCH codeword. */
  lemma BchWord(v: nat, g: nat, deg: nat) returns (q: nat)
    requires deg > 0 && v < Pow2(deg) && Pow2(deg) <= g < 2 * Pow2(deg)
    ensures v * Pow2(deg) + BchRem(v, deg, g, deg) == Carryless(g, q)
  {
    hide Xor, Carryless;
    q := BchRemDivides(v, deg, g, deg);
    var w, c := v * Pow2(deg), Carryless(g, q);
    BchRemBound(v, deg, g, deg);
    XorDisjoint(BchRem(v, deg, g, deg), v, deg);
    XorComm(BchRem(v, deg, g, deg), v * Pow2(deg));
    // w ^ (w ^ c) == c
    XorAssoc(w, w, c);
    XorSelf(w);
    XorZero(c);
  }

  // ---- format information ----

  /** `(1 << 3) | mask`: level L is 01 */
  function FormatData(mask: nat): nat { 8 + mask }

  /** 15 bits: data, BCH remainder, then the fixed mask 0x5412. */
  function FormatWord(mask: nat): nat {
    Xor(FormatData(mask) * 1024 + BchRem(FormatData(mask), 10, 0x537, 10), 0x5412)
  }

  method ComputeFormatWord(mask: nat) returns (bits: nat)
    requires mask < 8
    ensures bits == FormatWord(mask)
  {
    hide Xor, Shr;
    var data := 8 + mask;
    var rem := data;
    for i := 0 to 10
      invariant rem == BchRem(data, i, 0x537, 10)
    {
      rem := Xor(2 * rem, Shr(rem, 9) * 0x537);
    }
    bits := Xor(data * 1024 + rem, 0x5412);
  }

  /** Format reader: undo the fixed mask, check the level, return the mask. */
  function ReadFormat(word: nat): (r: Option<nat>)
    ensures r.Some? ==> r.value < 8
  {
    var data := Xor(word, 0x5412) / 1024;
    if data / 8 == 1 then Some(data % 8) else None
  }

  lemma Powers()
    ensures Pow2(10) == 1024 && Pow2(12) == 4096 && Pow2(15) == 32768
  {
    assert Pow2(11) == 2048;
    assert Pow2(13) == 8192;
  }

  lemma ReadFormatBack(mask: nat)
    requires mask < 8
    ensures FormatWord(mask) < Pow2(15) && ReadFormat(FormatWord(mask)) == Some(mask)
  {
    hide Xor, Pow2, BchRem;
    Powers();
    var data := FormatData(mask);
    var rem := BchRem(data, 10, 0x537, 10);
    BchRemBound(data, 10, 0x537, 10);
    var v := data * 1024 + rem;
    XorBound(v, 0x5412, 15);
    XorAssoc(v, 0x5412, 0x5412);
    XorSelf(0x5412);
    XorZero(v);
  }

  /** Under the fixed mask the format word is a BCH(15, 5) codeword. */
  lemma FormatIsCodeword(mask: nat) returns (q: nat)
    requires mask < 8
    ensures Xor(FormatWord(mask), 0x5412) == Carryless(0x537, q)
  {
    hide Xor, Pow2, BchRem, Carryless;
    Powers();
    var data := FormatData(mask);
    var v := data * 1024 + BchRem(data, 10, 0x537, 10);
    q := BchWord(data, 0x537, 10);
    XorAssoc(v, 0x5412, 0x5412);
    XorSelf(0x5412);
    XorZero(v);
  }

  // ---- version information ----

  function VersionWord(ver: Version): nat { ver * 4096 + BchRem(ver, 12, 0x1f25, 12) }

  method ComputeVersionWord(ver: Version) returns (bits: nat)
    ensures bits == VersionWord(ver)
  {
    hide Xor, Shr;
    var rem: nat := ver;
    for i := 0 to 12
      invariant rem == BchRem(ver, i, 0x1f25, 12)
    {
      rem := Xor(2 * rem, Shr(rem, 11) * 0x1f25);
    }
    bits := ver * 4096 + rem;
  }

  /** The version word is a codeword of the (18, 6) code and starts with the version. */
  lemma VersionIsCodeword(ver: Version) returns (q: nat)
    ensures VersionWord(ver) == Carryless(0x1f25, q) && VersionWord(ver) / 4096 == ver
  {
    hide Xor, Pow2, BchRem, Carryless;
    Powers();
    q := BchWord(ver, 0x1f25, 12);
    BchRemBound(ver, 12, 0x1f25, 12);
  }

  // ---- colours ----

  function Abs(v: int): int { if v < 0 then -v else v }

  function Max(a: int, b: int): int { if a > b then a else b }

  /** `Math.max(Math.abs(dx), Math.abs(dy))` */
  function Ring(cx: int, cy: int, x: int, y: int): int { Max(Abs(x - cx), Abs(y - cy)) }

  predicate TimingDark(x: int, y: int) { if x == 6 then y % 2 == 0 else x % 2 == 0 }

  function FinderCentre(ver: Version, v: int): int { if v <= 7 then 3 else Size(ver) - 4 }

  predicate FinderDark(ver: Version, x: int, y: int) {
    var d := Ring(FinderCentre(ver, x), FinderCentre(ver, y), x, y);
    d != 2 && d != 4
  }

  predicate AlignmentDark(ver: Version, x: int, y: int) {
    var al := AlignmentPositions(ver);
    exists i, j :: 0 <= i < |al| && 0 <= j < |al| && AlignmentAt(al, i, j, x, y) && Ring(al[i], al[j], x, y) != 1
  }

  /** Which of the 15 bits a format module shows. */
  function FormatIndex(ver: Version, x: int, y: int): int {
    if x == 8 then
      if y <= 5 then y else if y == 7 then 6 else if y == 8 then 7 else y - (Size(ver) - 15)
    else if x == 7 then 8
    else if x <= 5 then 14 - x
    else Size(ver) - 1 - x
  }

  predicate FormatDark(ver: Version, mask: nat, x: int, y: int)
    requires Format(ver, x, y)
  {
    (x == 8 && y == Size(ver) - 8) || BitAt(FormatWord(mask), FormatIndex(ver, x, y)) == 1
  }

  function VersionIndex(ver: Version, x: int, y: int): int {
    if y <= 5 then 3 * y + x - (Size(ver) - 11) else 3 * x + y - (Size(ver) - 11)
  }

  predicate VersionDark(ver: Version, x: int, y: int)
    requires VersionInfo(ver, x, y)
  {
    BitAt(VersionWord(ver), VersionIndex(ver, x, y)) == 1
  }

  /** Colour of a function module of the finished symbol. */
  predicate FnDark(ver: Version, mask: nat, x: int, y: int) {
    if Format(ver, x, y) then FormatDark(ver, mask, x, y)
    else if VersionInfo(ver, x, y) then VersionDark(ver, x, y)
    else if Alignment(ver, x, y) then AlignmentDark(ver, x, y)
    else if Finder(ver, x, y) then FinderDark(ver, x, y)
    else TimingDark(x, y)
  }

  predicate MaskBit(mask: nat, x: nat, y: nat) {
    match mask
    case 0 => (x + y) % 2 == 0
    case 1 => y % 2 == 0
    case 2 => x % 3 == 0
    case 3 => (x + y) % 3 == 0
    case 4 => (x / 3 + y / 2) % 2 == 0
    case 5 => (x * y) % 2 + (x * y) % 3 == 0
    case 6 => ((x * y) % 2 + (x * y) % 3) % 2 == 0
    case _ => ((x + y) % 2 + (x * y) % 3) % 2 == 0
  }
}
