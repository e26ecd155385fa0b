/** Capacity, bit stream, error correction blocks and interleaving of qr.ts:
    byte mode, level L, versions 1 to 10 of ISO/IEC 18004. */
module QrCapacity {

  import opened Wrappers

  const MAX_VERSION := 10
  const ECC_PER_BLOCK: seq<nat> := [7, 10, 15, 20, 26, 18, 20, 24, 30, 18]
  const NUM_BLOCKS: seq<nat> := [1, 1, 1, 1, 1, 2, 2, 2, 2, 4]

  type Version = v: int | 1 <= v <= MAX_VERSION witness 1

  function EccLen(ver: Version): nat { ECC_PER_BLOCK[ver - 1] }

  function NumBlocks(ver: Version): nat { NUM_BLOCKS[ver - 1] }

  function RawModules(ver: Version): int {
    var r := (16 * ver + 128) * ver + 64;
    if ver >= 2 then
      var n := ver / 7 + 2;
      r - ((25 * n - 10) * n - 55) - (if ver >= 7 then 36 else 0)
    else r
  }

  function RawCodewords(ver: Version): nat {
    Table(ver);
    RawModules(ver) / 8
  }

  function DataCodewords(ver: Version): nat {
    Table(ver);
    RawModules(ver) / 8 - EccLen(ver) * NumBlocks(ver)
  }

  /** `shortLen` and `numShort` of buildCodewords */
  function ShortLen(ver: Version): nat { RawCodewords(ver) / NumBlocks(ver) }

  function NumShort(ver: Version): int { NumBlocks(ver) - RawCodewords(ver) % NumBlocks(ver) }

  function CountBits(ver: Version): nat { if ver >= 10 then 16 else 8 }

  /** The figures of Table 1 and Table 9 of ISO/IEC 18004 for level L: data
      modules, codewords, data codewords. */
  lemma Table(ver: Version)
    ensures 1 <= NumBlocks(ver) <= 4
    ensures RawModules(ver) == [208, 359, 567, 807, 1079, 1383, 1568, 1936, 2336, 2768][ver - 1]
    ensures RawModules(ver) / 8 == [26, 44, 70, 100, 134, 172, 196, 242, 292, 346][ver - 1]
    ensures RawModules(ver) / 8 - EccLen(ver) * NumBlocks(ver)
         == [19, 34, 55, 80, 108, 136, 156, 194, 232, 274][ver - 1]
  {
    assert ver == 1 || ver == 2 || ver == 3 || ver == 4 || ver == 5
        || ver == 6 || ver == 7 || ver == 8 || ver == 9 || ver == 10;
  }

  /** The blocks share the codewords out exactly. */
  lemma Shares(ver: Version)
    ensures 0 < NumShort(ver) <= NumBlocks(ver)
    ensures EccLen(ver) < ShortLen(ver) && ShortLen(ver) < 255
    ensures NumBlocks(ver) * (ShortLen(ver) - EccLen(ver)) + (NumBlocks(ver) - NumShort(ver)) == DataCodewords(ver)
    ensures NumBlocks(ver) * (ShortLen(ver) + 1) - NumShort(ver) == RawCodewords(ver)
  {
    hide RawModules;
    Table(ver);
    assert ver == 1 || ver == 2 || ver == 3 || ver == 4 || ver == 5
        || ver == 6 || ver == 7 || ver == 8 || ver == 9 || ver == 10;
  }

  /** Blocks, data codewords of a short block and error correction codewords of each block,
      from Table 9 for level L; only version 10 has longer blocks, two of 69. */
  lemma BlockTable(ver: Version)
    ensures (NumBlocks(ver), NumShort(ver), ShortLen(ver) - EccLen(ver), EccLen(ver)) ==
      [(1, 1, 19, 7), (1, 1, 34, 10), (1, 1, 55, 15), (1, 1, 80, 20), (1, 1, 108, 26),
       (2, 2, 68, 18), (2, 2, 78, 20), (2, 2, 97, 24), (2, 2, 116, 30), (4, 2, 68, 18)][ver - 1]
  {
    hide RawModules;
    Table(ver);
    assert ver == 1 || ver == 2 || ver == 3 || ver == 4 || ver == 5
        || ver == 6 || ver == 7 || ver == 8 || ver == 9 || ver == 10;
  }

  /** `used <= dataCodewords(ver) * 8` for n bytes */
  predicate Fits(n: nat, ver: Version) {
    4 + CountBits(ver) + 8 * n <= DataCodewords(ver) * 8
  }

  /** The byte capacities of Table 7 for level L. */
  lemma CapacityTable(n: nat, ver: Version)
    ensures Fits(n, ver) <==> n <= [17, 32, 53, 78, 106, 134, 154, 192, 230, 271][ver - 1]
  {
    Table(ver);
  }

  /** The count field never truncates. */
  lemma CountFits(n: nat, ver: Version)
    requires Fits(n, ver)
    ensures n < 256 || (CountBits(ver) == 16 && n < 65536)
  {
    Table(ver);
  }

  /** Nothing fits beyond 271 bytes, everything up to there fits version 10, and
      a longer version never holds less. */
  lemma CapacityLimit(n: nat)
    ensures (exists ver: Version :: Fits(n, ver)) <==> n <= 271
    ensures Fits(n, 10) <==> n <= 271
  {
    forall ver: Version
      ensures Fits(n, ver) ==> n <= 271
    {
      Table(ver);
    }
    Table(10);
    if n <= 271 {
      var ver: Version := 10;
      assert Fits(n, ver);
    }
  }

  /** The version loop of qrMatrix: the smallest version that fits, or the
      "text too long" error. */
  method ChooseVersion(n: nat) returns (r: Option<Version>)
    ensures r.None? <==> n > 271
    ensures r.Some? ==> Fits(n, r.value) && forall u: Version :: u < r.value ==> !Fits(n, u)
  {
    var ver := 1;
    while ver <= MAX_VERSION
      invariant 1 <= ver <= MAX_VERSION + 1
      invariant forall u: Version :: u < ver ==> !Fits(n, u)
    {
      var used := 4 + (if ver >= 10 then 16 else 8) + n * 8;
      if used <= DataCodewords(ver) * 8 {
        assert Fits(n, ver);
        break;
      }
      assert !Fits(n, ver);
      ver := ver + 1;
    }
    CapacityLimit(n);
    if ver > MAX_VERSION {
      return None;
    }
    return Some(ver);
  }
}
