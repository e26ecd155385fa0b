/** Polynomials over GF(2^8), highest degree first, and the two loops of the
    Reed-Solomon encoder in qr.ts. */
module ReedSolomon {
  import opened Bits
  import opened Gf256
  import opened Wrappers

  function Eval(p: seq<Byte>, x: Byte): Byte {
    if p == [] then 0 else ByteXor(Mul(Eval(p[..|p| - 1], x), x), p[|p| - 1])
  }

  function Power(x: Byte, n: nat): Byte {
    if n == 0 then 1 else Mul(Power(x, n - 1), x)
  }

  function AddPoly(p: seq<Byte>, q: seq<Byte>): (r: seq<Byte>)
    requires |p| == |q|
    ensures |r| == |p|
  {
    seq(|p|, i requires 0 <= i < |p| => ByteXor(p[i], q[i]))
  }

  function Scale(p: seq<Byte>, c: Byte): (r: seq<Byte>)
    ensures |r| == |p|
  {
    seq(|p|, i requires 0 <= i < |p| => Mul(p[i], c))
  }

  function Zeros(n: nat): (r: seq<Byte>)
    ensures |r| == n
  {
    seq(n, i => 0)
  }

  /** p * (x + r) */
  function TimesRoot(p: seq<Byte>, r: Byte): (q: seq<Byte>)
    ensures |q| == |p| + 1
  {
    AddPoly(p + [0], [0] + Scale(p, r))
  }

  lemma EvalAppend(p: seq<Byte>, c: Byte, x: Byte)
    ensures Eval(p + [c], x) == ByteXor(Mul(Eval(p, x), x), c)
  {
    hide Mul, ByteXor;
    assert (p + [c])[..|p|] == p;
  }

  lemma {:induction false} EvalConcat(p: seq<Byte>, q: seq<Byte>, x: Byte)
    ensures Eval(p + q, x) == ByteXor(Mul(Eval(p, x), Power(x, |q|)), Eval(q, x))
  {
    hide Mul, ByteXor;
    var e := Eval(p, x);
    if q == [] {
      assert p + q == p;
      MulComm(1, e);
      MulOne(e);
      AddLaws(e, 0, 0);
    } else {
      var q', c := q[..|q| - 1], q[|q| - 1];
      assert p + q == (p + q') + [c];
      EvalAppend(p + q', c, x);
      EvalConcat(p, q', x);
      var w, f := Power(x, |q'|), Eval(q', x);
      MulAddLeft(Mul(e, w), f, x);
      MulAssoc(e, w, x);
      AddLaws(Mul(e, Power(x, |q|)), Mul(f, x), c);
    }
  }

  lemma {:induction false} EvalAdd(p: seq<Byte>, q: seq<Byte>, x: Byte)
    requires |p| == |q|
    ensures Eval(AddPoly(p, q), x) == ByteXor(Eval(p, x), Eval(q, x))
  {
    hide Mul, ByteXor;
    if p == [] {
      AddLaws(0, 0, 0);
    } else {
      var n := |p| - 1;
      assert AddPoly(p, q)[..n] == AddPoly(p[..n], q[..n]);
      EvalAdd(p[..n], q[..n], x);
      MulAddLeft(Eval(p[..n], x), Eval(q[..n], x), x);
      AddSwap(Mul(Eval(p[..n], x), x), Mul(Eval(q[..n], x), x), p[n], q[n]);
    }
  }

  lemma {:induction false} EvalScale(p: seq<Byte>, c: Byte, x: Byte)
    ensures Eval(Scale(p, c), x) == Mul(Eval(p, x), c)
  {
    hide Mul, ByteXor;
    if p == [] {
      MulZero(c);
    } else {
      var n := |p| - 1;
      assert Scale(p, c)[..n] == Scale(p[..n], c);
      var e := Eval(p[..n], x);
      EvalScale(p[..n], c, x);
      MulAddLeft(Mul(e, x), p[n], c);
      MulAssoc(e, c, x);
      MulComm(c, x);
      MulAssoc(e, x, c);
    }
  }

  lemma {:induction false} EvalZeros(n: nat, x: Byte)
    ensures Eval(Zeros(n), x) == 0
  {
    hide Mul, ByteXor;
    if n > 0 {
      assert Zeros(n)[..n - 1] == Zeros(n - 1);
      EvalZeros(n - 1, x);
      MulZero(x);
      AddLaws(0, 0, 0);
    }
  }

  lemma EvalLeadingZero(p: seq<Byte>, x: Byte)
    ensures Eval([0] + p, x) == Eval(p, x)
  {
    hide Mul, ByteXor, Eval;
    EvalConcat(Zeros(1), p, x);
    assert Zeros(1) == [0];
    EvalZeros(1, x);
    MulZero(Power(x, |p|));
    AddLaws(Eval(p, x), 0, 0);
  }

  lemma EvalTimesRoot(p: seq<Byte>, r: Byte, x: Byte)
    ensures Eval(TimesRoot(p, r), x) == Mul(Eval(p, x), ByteXor(x, r))
  {
    hide Mul, ByteXor, Eval;
    EvalAdd(p + [0], [0] + Scale(p, r), x);
    EvalAppend(p, 0, x);
    EvalLeadingZero(Scale(p, r), x);
    EvalScale(p, r, x);
    AddLaws(Mul(Eval(p, x), x), 0, 0);
    MulAddRight(Eval(p, x), x, r);
  }

  // ---- the generator polynomial ----

  /** (x + 2^0) (x + 2^1) ... (x + 2^(n-1)) */
  function Generator(n: nat): (g: seq<Byte>)
    ensures |g| == n + 1
  {
    if n == 0 then [1] else TimesRoot(Generator(n - 1), Alpha(n - 1))
  }

  /** The same product with a value put in for x. */
  function RootProduct(n: nat, x: Byte): Byte {
    if n == 0 then 1 else Mul(RootProduct(n - 1, x), ByteXor(x, Alpha(n - 1)))
  }

  lemma {:induction false} GeneratorIsProduct(n: nat, x: Byte)
    ensures Eval(Generator(n), x) == RootProduct(n, x)
  {
    hide Mul, ByteXor, Alpha;
    if n == 0 {
      assert [1] == [] + [1 as Byte];
      EvalAppend([], 1, x);
      MulZero(x);
      AddLaws(1, 0, 0);
    } else {
      GeneratorIsProduct(n - 1, x);
      EvalTimesRoot(Generator(n - 1), Alpha(n - 1), x);
    }
  }

  /** x is one of 2^0 .. 2^(n-1). */
  ghost predicate IsRoot(n: nat, x: Byte) {
    exists i: nat :: i < n && Alpha(i) == x
  }

  lemma RootStep(n: nat, x: Byte)
    requires n > 0
    ensures IsRoot(n, x) <==> IsRoot(n - 1, x) || Alpha(n - 1) == x
  {
    hide Alpha;
    if IsRoot(n, x) {
      var i: nat :| i < n && Alpha(i) == x;
      assert i < n - 1 || i == n - 1;
    }
  }

  /** The product vanishes at its roots and nowhere else. */
  lemma {:induction false} RootProductZero(n: nat, x: Byte)
    ensures RootProduct(n, x) == 0 <==> IsRoot(n, x)
  {
    hide Mul, ByteXor, Alpha;
    if n > 0 {
      var a, b := RootProduct(n - 1, x), ByteXor(x, Alpha(n - 1));
      RootProductZero(n - 1, x);
      RootStep(n, x);
      AddLaws(x, x, 0);
      MulComm(a, b);
      MulZero(a);
      MulZero(b);
      if b == 0 {
        EqualWhenSumZero(x, Alpha(n - 1));
      } else if a != 0 {
        NoZeroDivisors(a, b);
      }
    }
  }

  /** Coefficient of x^k. */
  function Coef(p: seq<Byte>, k: nat): Byte {
    if k < |p| then p[|p| - 1 - k] else 0
  }

  /** The coefficients below x^d, as the d-element array of the source holds them. */
  function Low(p: seq<Byte>, d: nat): (r: seq<Byte>)
    ensures |r| == d
  {
    seq(d, j requires 0 <= j < d => Coef(p, d - 1 - j))
  }

  lemma CoefTimesRoot(p: seq<Byte>, r: Byte, k: nat)
    ensures Coef(TimesRoot(p, r), k)
         == ByteXor(Mul(Coef(p, k), r), if k > 0 then Coef(p, k - 1) else 0)
  {
    hide Mul, ByteXor;
    MulZero(r);
    AddLaws(0, 0, 0);
    if k < |p| + 1 {
      var i := |p| - k;
      var a: Byte := (p + [0])[i];
      var b: Byte := ([0] + Scale(p, r))[i];
      assert TimesRoot(p, r)[i] == ByteXor(a, b);
      AddLaws(a, b, 0);
    }
  }

  lemma TimesTwo(x: Byte)
    ensures Mul(x, 2) == XTime(x)
  {
    hide *;
    XTimeIsDoubled(1);
    MulOne(x);
    MulXTime(1, x);
    MulComm(x, 2);
    DoubledOne();
  }

  lemma DoubledOne()
    ensures Doubled(1) == 2
  {
  }

  method RsDivisor(degree: nat) returns (result: array<Byte>)
    requires degree >= 1
    ensures fresh(result) && result.Length == degree
    ensures result[..] == Low(Generator(degree), degree)
  {
    hide Mul, ByteXor, XTime, Coef, TimesRoot;
    result := new Byte[degree](_ => 0);
    result[degree - 1] := 1;
    var root: Byte := 1;
    InitialRow(degree, result[..]);
    for i := 0 to degree
      invariant root == Alpha(i)
      invariant result[..] == Low(Generator(i), degree)
    {
      ghost var g := Generator(i);
      ghost var g' := Generator(i + 1);
      ghost var before := result[..];
      for j := 0 to degree
        invariant forall k :: 0 <= k < j ==> result[k] == Coef(g', degree - 1 - k)
        invariant forall k :: j <= k < degree ==> result[k] == before[k]
      {
        assert result[j] == Coef(g, degree - 1 - j);
        CoefTimesRoot(g, root, degree - 1 - j);
        AddLaws(Mul(result[j], root), 0, 0);
        var v := GfMul(result[j], root);
        result[j] := v;
        if j + 1 < degree {
          assert before[j + 1] == Coef(g, degree - 2 - j);
          result[j] := ByteXor(result[j], result[j + 1]);
        }
      }
      assert result[..] == Low(g', degree);
      TimesTwo(root);
      root := GfMul(root, 2);
    }
  }

  lemma InitialRow(d: nat, s: seq<Byte>)
    requires d >= 1 && |s| == d && s[d - 1] == 1 && forall j :: 0 <= j < d - 1 ==> s[j] == 0
    ensures s == Low(Generator(0), d)
  {
    assert Generator(0) == [1];
    assert forall j :: 0 <= j < d ==> s[j] == Coef([1], d - 1 - j);
  }

  lemma {:induction false} GeneratorMonic(n: nat)
    ensures Generator(n)[0] == 1 && Generator(n) == [1] + Low(Generator(n), n)
  {
    hide Mul, ByteXor, Alpha;
    if n > 0 {
      GeneratorMonic(n - 1);
      AddLaws(1, 0, 0);
    }
    var g := Generator(n);
    assert forall i :: 1 <= i <= n ==> g[i] == Coef(g, n - i);
  }

  // ---- division by a monic polynomial ----

  function DivideStep(r: seq<Byte>, b: Byte, divisor: seq<Byte>): (r': seq<Byte>)
    requires |r| == |divisor| > 0
    ensures |r'| == |r|
  {
    AddPoly(r[1..] + [0], Scale(divisor, ByteXor(b, r[0])))
  }

  function Remainder(data: seq<Byte>, divisor: seq<Byte>): (r: seq<Byte>)
    requires |divisor| > 0
    ensures |r| == |divisor|
  {
    if data == [] then Zeros(|divisor|)
    else DivideStep(Remainder(data[..|data| - 1], divisor), data[|data| - 1], divisor)
  }

  /** The factors the loop of rsRemainder multiplies the divisor by. */
  function Quotient(data: seq<Byte>, divisor: seq<Byte>): (q: seq<Byte>)
    requires |divisor| > 0
    ensures |q| == |data|
  {
    if data == [] then []
    else
      var before := data[..|data| - 1];
      Quotient(before, divisor) + [ByteXor(data[|data| - 1], Remainder(before, divisor)[0])]
  }

  method RsRemainder(data: seq<Byte>, divisor: seq<Byte>) returns (result: seq<Byte>)
    requires |divisor| > 0
    ensures result == Remainder(data, divisor)
  {
    hide Mul, ByteXor;
    result := Zeros(|divisor|);
    for n := 0 to |data|
      invariant result == Remainder(data[..n], divisor)
    {
      assert data[..n + 1][..n] == data[..n];
      ghost var r := result;
      var factor := ByteXor(data[n], result[0]);
      result := result[1..];
      result := result + [0];
      ghost var shifted := result;
      for i := 0 to |divisor|
        invariant |result| == |divisor|
        invariant forall k :: 0 <= k < i ==> result[k] == ByteXor(shifted[k], Mul(divisor[k], factor))
        invariant forall k :: i <= k < |divisor| ==> result[k] == shifted[k]
      {
        var p := GfMul(divisor[i], factor);
        result := result[i := ByteXor(result[i], p)];
      }
      assert result == DivideStep(r, data[n], divisor);
    }
    assert data[..|data|] == data;
  }

  /** data * x^d + remainder == quotient * (x^d + divisor), as functions. */
  lemma {:induction false} DivisionLaw(data: seq<Byte>, divisor: seq<Byte>, x: Byte)
    requires |divisor| > 0
    ensures Eval(data + Remainder(data, divisor), x)
         == Mul(Eval(Quotient(data, divisor), x), Eval([1] + divisor, x))
  {
    hide Mul, ByteXor, Eval, DivideStep, Power;
    var d := |divisor|;
    var g := Eval([1] + divisor, x);
    if data == [] {
      assert data + Zeros(d) == Zeros(d);
      EvalZeros(d, x);
      EvalEmpty(x);
      MulZero(g);
    } else {
      var n := |data| - 1;
      var before, b := data[..n], data[n];
      assert data == before + [b];
      var r, q := Remainder(before, divisor), Quotient(before, divisor);
      DivisionLaw(before, divisor, x);
      DivideRound(before, b, r, Eval(q, x), divisor, x);
      var f := ByteXor(b, r[0]);
      EvalAppend(q, f, x);
    }
  }

  lemma EvalEmpty(x: Byte)
    ensures Eval([], x) == 0
  {
  }

  lemma MonicValue(p: seq<Byte>, x: Byte)
    ensures Eval([1] + p, x) == ByteXor(Power(x, |p|), Eval(p, x))
  {
    hide Mul, ByteXor, Eval, Power;
    EvalConcat([1], p, x);
    EvalEmpty(x);
    assert [1] == [] + [1 as Byte];
    EvalAppend([], 1, x);
    MulZero(x);
    AddLaws(1, 0, 0);
    MulOne(Power(x, |p|));
  }

  /** One byte more: the new value is x times the old one plus factor times the divisor. */
  lemma DivideRound(before: seq<Byte>, b: Byte, r: seq<Byte>, q: Byte, divisor: seq<Byte>, x: Byte)
    requires |r| == |divisor| > 0
    requires Eval(before + r, x) == Mul(q, Eval([1] + divisor, x))
    ensures Eval(before + [b] + DivideStep(r, b, divisor), x)
         == Mul(ByteXor(Mul(q, x), ByteXor(b, r[0])), Eval([1] + divisor, x))
  {
    var d := |r|;
    var tail := r[1..];
    hide *;
    SplitHead(before, r);
    var D, w, low, rest := Eval(before, x), Power(x, d), Eval(divisor, x), Eval(tail, x);
    MonicValue(divisor, x);
    OldValue(before, r[0], tail, x);
    NewValue(before, b, r, divisor, x);
    PowerStep(x, d - 1);
    RoundAlgebra(D, b, r[0], rest, low, w, Power(x, d - 1), x, q, Eval([1] + divisor, x));
  }

  lemma SplitHead(before: seq<Byte>, r: seq<Byte>)
    requires |r| > 0
    ensures before + r == before + [r[0]] + r[1..]
  {
  }

  lemma OldValue(before: seq<Byte>, r0: Byte, tail: seq<Byte>, x: Byte)
    ensures Eval(before + [r0] + tail, x)
         == ByteXor(Mul(ByteXor(Mul(Eval(before, x), x), r0), Power(x, |tail|)), Eval(tail, x))
  {
    hide *;
    EvalConcat(before + [r0], tail, x);
    EvalAppend(before, r0, x);
  }

  lemma NewValue(before: seq<Byte>, b: Byte, r: seq<Byte>, divisor: seq<Byte>, x: Byte)
    requires |r| == |divisor| > 0
    ensures Eval(before + [b] + DivideStep(r, b, divisor), x)
         == ByteXor(Mul(ByteXor(Mul(Eval(before, x), x), b), Power(x, |r|)),
                    ByteXor(ByteXor(Mul(Eval(r[1..], x), x), 0), Mul(Eval(divisor, x), ByteXor(b, r[0]))))
  {
    hide Mul, ByteXor, Eval, Power, AddPoly, Scale;
    var f := ByteXor(b, r[0]);
    EvalConcat(before + [b], DivideStep(r, b, divisor), x);
    EvalAppend(before, b, x);
    EvalAdd(r[1..] + [0], Scale(divisor, f), x);
    EvalAppend(r[1..], 0, x);
    EvalScale(divisor, f, x);
  }

  lemma PowerStep(x: Byte, n: nat)
    ensures Power(x, n + 1) == Mul(Power(x, n), x)
  {
    hide Mul;
  }

  lemma RoundAlgebra(D: Byte, b: Byte, r0: Byte, rest: Byte, low: Byte, w: Byte, w1: Byte, x: Byte, q: Byte, g: Byte)
    requires w == Mul(w1, x) && g == ByteXor(w, low)
    requires Mul(q, g) == ByteXor(Mul(ByteXor(Mul(D, x), r0), w1), rest)
    ensures ByteXor(Mul(ByteXor(Mul(D, x), b), w), ByteXor(ByteXor(Mul(rest, x), 0), Mul(low, ByteXor(b, r0))))
         == Mul(ByteXor(Mul(q, x), ByteXor(b, r0)), g)
  {
    hide *;
    var u, f := ByteXor(Mul(D, x), r0), ByteXor(b, r0);
    // right side: (q x + f) g == (q g) x + f g == u w + rest x + f w + f low
    MulAddLeft(Mul(q, x), f, g);
    MulAssoc(q, x, g);
    MulComm(x, g);
    MulAssoc(q, g, x);
    MulAddLeft(Mul(u, w1), rest, x);
    MulAssoc(u, w1, x);
    MulAddRight(f, w, low);
    MulComm(low, f);
    AddSwap(Mul(u, w), Mul(rest, x), Mul(f, w), Mul(f, low));
    MulAddLeft(u, f, w);
    // u + f == D x + b
    AddLaws(r0, b, 0);
    AddLaws(Mul(D, x), r0, ByteXor(r0, b));
    AddLaws(r0, r0, b);
    AddLaws(b, 0, 0);
    AddLaws(Mul(rest, x), 0, 0);
  }

  lemma RootWitness(d: nat, i: nat)
    requires i < d
    ensures IsRoot(d, Alpha(i))
  {
  }

  /** What a decoder checks: the encoded block vanishes at every root of the generator. */
  lemma EncodedBlockVanishes(data: seq<Byte>, d: nat, i: nat)
    requires i < d
    ensures Eval(data + Remainder(data, Low(Generator(d), d)), Alpha(i)) == 0
  {
    var divisor, x := Low(Generator(d), d), Alpha(i);
    hide *;
    DivisionLaw(data, divisor, x);
    GeneratorMonic(d);
    GeneratorIsProduct(d, x);
    RootProductZero(d, x);
    RootWitness(d, i);
    MulComm(Eval(Quotient(data, divisor), x), 0);
    MulZero(Eval(Quotient(data, divisor), x));
  }

  // ---- distance ----

  /** Number of nonzero entries. */
  function Weight(c: seq<Byte>): nat {
    if c == [] then 0 else Weight(c[..|c| - 1]) + (if c[|c| - 1] == 0 then 0 else 1)
  }

  /** sum of c[k] * X[k]^i */
  function PowerSum(X: seq<Byte>, c: seq<Byte>, i: nat): Byte
    requires |X| == |c|
  {
    if c == [] then 0
    else
      var n := |c| - 1;
      ByteXor(PowerSum(X[..n], c[..n], i), Mul(c[n], Power(X[n], i)))
  }

  /** c[k] * (X[k] + z) */
  function Eliminate(X: seq<Byte>, c: seq<Byte>, z: Byte): (e: seq<Byte>)
    requires |X| == |c|
    ensures |e| == |c|
  {
    seq(|c|, k requires 0 <= k < |c| => Mul(c[k], ByteXor(X[k], z)))
  }

  lemma {:induction false} EliminateSum(X: seq<Byte>, c: seq<Byte>, z: Byte, i: nat)
    requires |X| == |c|
    ensures PowerSum(X, Eliminate(X, c, z), i) == ByteXor(PowerSum(X, c, i + 1), Mul(PowerSum(X, c, i), z))
  {
    hide Mul, ByteXor, Power;
    if c == [] {
      MulZero(z);
      AddLaws(0, 0, 0);
    } else {
      var n := |c| - 1;
      assert Eliminate(X, c, z)[..n] == Eliminate(X[..n], c[..n], z);
      EliminateSum(X[..n], c[..n], z, i);
      var s1, s0, w := PowerSum(X[..n], c[..n], i + 1), PowerSum(X[..n], c[..n], i), Power(X[n], i);
      PowerStep(X[n], i);
      TermEliminate(c[n], X[n], z, w);
      MulAddLeft(s0, Mul(c[n], w), z);
      AddSwap(s1, Mul(s0, z), Mul(c[n], Mul(w, X[n])), Mul(Mul(c[n], w), z));
    }
  }

  lemma TermEliminate(c: Byte, x: Byte, z: Byte, w: Byte)
    ensures Mul(Mul(c, ByteXor(x, z)), w) == ByteXor(Mul(c, Mul(w, x)), Mul(Mul(c, w), z))
  {
    hide *;
    MulAssoc(c, ByteXor(x, z), w);
    MulComm(ByteXor(x, z), w);
    MulAddRight(w, x, z);
    MulAddRight(c, Mul(w, x), Mul(w, z));
    MulAssoc(c, w, z);
  }

  /** Eliminating X[w] clears exactly entry w. */
  lemma EliminateEntries(X: seq<Byte>, c: seq<Byte>, w: nat)
    requires |X| == |c| && w < |c| && Distinct(X)
    ensures var e := Eliminate(X, c, X[w]);
            forall k :: 0 <= k < |c| ==> (e[k] == 0 <==> c[k] == 0 || k == w)
  {
    hide Mul, ByteXor;
    var e := Eliminate(X, c, X[w]);
    forall k | 0 <= k < |c|
      ensures e[k] == 0 <==> c[k] == 0 || k == w
    {
      var d := ByteXor(X[k], X[w]);
      AddLaws(X[w], 0, 0);
      MulZero(d);
      MulComm(c[k], 0);
      MulZero(c[k]);
      if k != w && c[k] != 0 {
        if d == 0 {
          EqualWhenSumZero(X[k], X[w]);
        }
        NoZeroDivisors(c[k], d);
      }
    }
  }

  lemma {:induction false} WeightSame(c: seq<Byte>, e: seq<Byte>)
    requires |c| == |e| && forall k :: 0 <= k < |c| ==> (e[k] == 0 <==> c[k] == 0)
    ensures Weight(e) == Weight(c)
  {
    if c != [] {
      WeightSame(c[..|c| - 1], e[..|c| - 1]);
    }
  }

  lemma {:induction false} WeightDrop(c: seq<Byte>, e: seq<Byte>, w: nat)
    requires |c| == |e| && w < |c| && c[w] != 0
    requires forall k :: 0 <= k < |c| ==> (e[k] == 0 <==> c[k] == 0 || k == w)
    ensures Weight(e) == Weight(c) - 1
  {
    var n := |c| - 1;
    if w == n {
      WeightSame(c[..n], e[..n]);
    } else {
      WeightDrop(c[..n], e[..n], w);
    }
  }

  lemma {:induction false} WeightPositive(c: seq<Byte>) returns (w: nat)
    requires Weight(c) > 0
    ensures w < |c| && c[w] != 0
  {
    var n := |c| - 1;
    if c[n] != 0 {
      w := n;
    } else {
      w := WeightPositive(c[..n]);
    }
  }

  lemma {:induction false} SingleTerm(X: seq<Byte>, c: seq<Byte>, w: nat)
    requires |X| == |c| && w < |c| && c[w] != 0
    requires forall k :: 0 <= k < |c| && k != w ==> c[k] == 0
    ensures PowerSum(X, c, 0) != 0
  {
    hide Mul, ByteXor;
    var n := |c| - 1;
    var s := PowerSum(X[..n], c[..n], 0);
    MulComm(c[n], 1);
    MulOne(c[n]);
    AddLaws(s, 0, 0);
    AddLaws(c[n], 0, 0);
    if w == n {
      NoTerms(X[..n], c[..n], 0);
    } else {
      SingleTerm(X[..n], c[..n], w);
    }
  }

  lemma {:induction false} NoTerms(X: seq<Byte>, c: seq<Byte>, i: nat)
    requires |X| == |c| && forall k :: 0 <= k < |c| ==> c[k] == 0
    ensures PowerSum(X, c, i) == 0
  {
    hide Mul, ByteXor, Power;
    if c != [] {
      var n := |c| - 1;
      NoTerms(X[..n], c[..n], i);
      MulZero(Power(X[n], i));
      AddLaws(0, 0, 0);
    }
  }

  /** Fewer nonzero terms than vanishing power sums: then there are none. */
  lemma {:induction false} PowerSumsForceZero(X: seq<Byte>, c: seq<Byte>, m: nat)
    requires |X| == |c| && Distinct(X) && Weight(c) <= m
    requires forall i :: 0 <= i < m ==> PowerSum(X, c, i) == 0
    ensures Weight(c) == 0
    decreases m
  {
    hide Mul, ByteXor, PowerSum, Eliminate, Weight;
    if Weight(c) > 0 {
      var w := WeightPositive(c);
      var e := Eliminate(X, c, X[w]);
      EliminateEntries(X, c, w);
      WeightDrop(c, e, w);
      forall i | 0 <= i < m - 1
        ensures PowerSum(X, e, i) == 0
      {
        EliminateSum(X, c, X[w], i);
        MulZero(X[w]);
        AddLaws(0, 0, 0);
      }
      PowerSumsForceZero(X, e, m - 1);
      ZeroWeight(e);
      SingleTerm(X, c, w);
    }
  }

  lemma {:induction false} ZeroWeight(c: seq<Byte>)
    requires Weight(c) == 0
    ensures forall k :: 0 <= k < |c| ==> c[k] == 0
  {
    if c != [] {
      ZeroWeight(c[..|c| - 1]);
    }
  }

  lemma {:induction false} PowerOfAlpha(m: nat, i: nat)
    ensures Power(Alpha(m), i) == Alpha(m * i)
  {
    hide Mul, Alpha;
    if i == 0 {
      AlphaZero();
    } else {
      PowerOfAlpha(m, i - 1);
      assert m * i == m * (i - 1) + m;
      AlphaAdd(m * (i - 1), m);
    }
  }

  /** The locators of an n-entry block, shifted by s positions. */
  function Shifted(n: nat, s: nat): (X: seq<Byte>)
    ensures |X| == n
  {
    seq(n, k requires 0 <= k < n => Alpha(n - 1 - k + s))
  }

  /** Value of a block at 2^i, written with the locators shifted by s positions. */
  lemma {:induction false} EvalIsPowerSum(c: seq<Byte>, s: nat, i: nat)
    ensures Mul(Eval(c, Alpha(i)), Alpha(s * i)) == PowerSum(Shifted(|c|, s), c, i)
  {
    hide Mul, ByteXor, Alpha, Power;
    var X := Shifted(|c|, s);
    if c == [] {
      MulZero(Alpha(s * i));
    } else {
      var n := |c| - 1;
      assert X[..n] == Shifted(n, s + 1);
      var e := Eval(c[..n], Alpha(i));
      EvalIsPowerSum(c[..n], s + 1, i);
      MulAddLeft(Mul(e, Alpha(i)), c[n], Alpha(s * i));
      MulAssoc(e, Alpha(i), Alpha(s * i));
      assert i + s * i == (s + 1) * i;
      AlphaAdd(i, s * i);
      PowerOfAlpha(s, i);
      assert X[n] == Alpha(s);
    }
  }

  lemma ShiftedDistinct(n: nat)
    requires n <= 255
    ensures Distinct(Shifted(n, 0))
  {
    hide Alpha;
    var X := Shifted(n, 0);
    forall i, j | 0 <= i < j < n
      ensures X[i] != X[j]
    {
      AlphaDistinct(n - 1 - j, n - 1 - i);
    }
  }

  /** Positions in which two blocks differ. */
  function Distance(a: seq<Byte>, b: seq<Byte>): nat
    requires |a| == |b|
  {
    if a == [] then 0
    else Distance(a[..|a| - 1], b[..|b| - 1]) + (if a[|a| - 1] == b[|b| - 1] then 0 else 1)
  }

  lemma {:induction false} DistanceIsWeight(a: seq<Byte>, b: seq<Byte>)
    requires |a| == |b|
    ensures Distance(a, b) == Weight(AddPoly(a, b))
    ensures Distance(a, b) == 0 ==> a == b
  {
    hide ByteXor, Weight, AddPoly;
    if a == [] {
      WeightNothing();
    } else {
      var n := |a| - 1;
      DistanceIsWeight(a[..n], b[..n]);
      WeightLast(a, b);
      assert a == a[..n] + [a[n]] && b == b[..n] + [b[n]];
    }
  }

  lemma WeightNothing()
    ensures Weight(AddPoly([], [])) == 0
  {
  }

  lemma WeightLast(a: seq<Byte>, b: seq<Byte>)
    requires |a| == |b| > 0
    ensures var n := |a| - 1;
      Weight(AddPoly(a, b)) == Weight(AddPoly(a[..n], b[..n])) + if a[n] == b[n] then 0 else 1
  {
    hide ByteXor;
    var n := |a| - 1;
    assert AddPoly(a, b)[..n] == AddPoly(a[..n], b[..n]);
    AddLaws(a[n], b[n], 0);
    if ByteXor(a[n], b[n]) == 0 {
      EqualWhenSumZero(a[n], b[n]);
    }
  }

  /** Two different data blocks of one length encode to blocks that differ in more
      than d places, so d lost or d / 2 wrong codewords never make them alike. */
  lemma EncodedBlocksFarApart(data: seq<Byte>, other: seq<Byte>, d: nat)
    requires d > 0 && |data| == |other| && |data| + d <= 255 && data != other
    ensures var divisor := Low(Generator(d), d);
            Distance(data + Remainder(data, divisor), other + Remainder(other, divisor)) > d
  {
    hide Mul, ByteXor, Eval, Generator, Low, Remainder, Weight, Distance, PowerSum, Alpha;
    var divisor := Low(Generator(d), d);
    var a, b := data + Remainder(data, divisor), other + Remainder(other, divisor);
    var c := AddPoly(a, b);
    var X := Shifted(|c|, 0);
    assert data == a[..|data|] && other == b[..|data|];
    if Distance(a, b) <= d {
      DistanceIsWeight(a, b);
      forall i | 0 <= i < d
        ensures PowerSum(X, c, i) == 0
      {
        EncodedBlockVanishes(data, d, i);
        EncodedBlockVanishes(other, d, i);
        EvalAdd(a, b, Alpha(i));
        AddLaws(0, 0, 0);
        EvalIsPowerSum(c, 0, i);
        MulZero(Alpha(0 * i));
      }
      ShiftedDistinct(|c|);
      PowerSumsForceZero(X, c, d);
    }
  }
}
