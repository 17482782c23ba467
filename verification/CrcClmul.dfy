/** The carry-less-multiply fast path.  A SIMD register or a 64-bit word is the list of its bits, least
 *  significant first.  Read as a polynomial in 1/x such a list has a value, `Val`, and carry-less
 *  multiplication is multiplication of values.
 */
module CrcClmul {
  import opened Common
  import opened Gf2Register
  import opened Gf2Polynomial
  import opened PowerTables
  import opened CrcMultiply
  import opened CrcCombine
  import opened CrcStream
  import opened Crc32cTable

  // v * x^n for any integer n.
  function Scale(n: int, v: bv32): bv32 {
    if n >= 0 then Shift(Up, v, n) else Shift(Down, v, -n)
  }

  lemma ScaleScale(m: int, n: int, v: bv32)
    ensures Scale(m, Scale(n, v)) == Scale(m + n, v)
  {
    hide Shift;
    if m >= 0 && n >= 0 {
      ShiftShift(Up, v, n, m);
    } else if m < 0 && n < 0 {
      ShiftShift(Down, v, -n, -m);
    } else if m >= 0 && m >= -n {
      ShiftShift(Up, Shift(Down, v, -n), -n, m + n);
      ShiftCancels(Up, Down, v, -n);
    } else if m >= 0 {
      ShiftShift(Down, v, -n - m, m);
      ShiftCancels(Up, Down, Shift(Down, v, -n - m), m);
    } else if n >= -m {
      ShiftShift(Up, v, n + m, -m);
      ShiftCancels(Down, Up, Shift(Up, v, n + m), -m);
    } else {
      ShiftShift(Down, Shift(Up, v, n), n, -m - n);
      ShiftCancels(Down, Up, v, n);
    }
  }

  lemma ScaleAdd(n: int, v: bv32, w: bv32)
    ensures Scale(n, Add(v, w)) == Add(Scale(n, v), Scale(n, w))
  {
    hide Shift;
    hide Add;
    if n >= 0 { ShiftAdd(Up, v, w, n); } else { ShiftAdd(Down, v, w, -n); }
  }

  lemma ScaleMult(n: int, a: bv32, b: bv32)
    ensures Mult(Scale(n, a), b) == Scale(n, Mult(a, b))
    ensures Mult(a, Scale(n, b)) == Scale(n, Mult(a, b))
  {
    hide Shift;
    hide Mult;
    if n >= 0 { MultShift(a, b, Up, n); } else { MultShift(a, b, Down, -n); }
  }

  // ----- the value of a list of bits -----

  function Val(p: seq<bool>): bv32 { Act(Down, p, ONE) }

  lemma ValConcat(p: seq<bool>, q: seq<bool>)
    ensures Val(p + q) == Add(Val(p), Scale(-|p|, Val(q)))
  {
    hide Act;
    hide Shift;
    hide Add;
    ActConcat(Down, p, q, ONE);
    if |p| == 0 { ScaleZero(Val(q)); }
  }

  lemma ScaleZero(v: bv32)
    ensures Scale(0, v) == v
    ensures Shift(Down, v, 0) == v
  {
  }

  lemma ValZeros(p: seq<bool>)
    requires forall i: nat :: !Coef(p, i)
    ensures Val(p) == 0
  {
    ActZeros(Down, p, ONE);
  }

  lemma ValMul(p: seq<bool>, q: seq<bool>)
    ensures Val(PMul(p, q)) == Mult(Val(p), Val(q))
  {
    hide Act;
    hide Mult;
    hide PMul;
    ActPMul(Down, p, q, ONE);
    ActByValue(Down, p, Act(Down, q, ONE));
  }

  // ----- 32-bit words -----

  function Odd(a: bv32): bool { a & 1 == 1 }

  function LowBits(a: bv32, n: nat): (p: seq<bool>)
    ensures |p| == n
    decreases n
  {
    if n == 0 then [] else [Odd(a)] + LowBits(Half(a), n - 1)
  }

  // The bits of a register, least significant first.
  function Word(a: bv32): (p: seq<bool>)
    ensures |p| == 32
  {
    LowBits(a, 32)
  }

  function Append(b: bool, a: bv32): bv32 { (a << 1) ^ (if b then 1 else 0) }

  // The number a list of bits denotes.
  function Number(p: seq<bool>): bv32 {
    if p == [] then 0 else Append(p[0], Number(p[1..]))
  }

  predicate HighZero(a: bv32, m: bv32) { a & m == 0 }

  function HighMask(n: nat): bv32 {
    if n == 0 then 0xffffffff else Double(HighMask(n - 1))
  }

  lemma AppendByDivX(b: bool, a: bv32)
    requires !Top(a)
    ensures Append(b, a) == Add(if b then 1 else 0, DivX(a))
  {
    if b { } else { }
  }

  lemma AppendHighZero(b: bool, a: bv32, m: bv32)
    requires HighZero(a, m)
    ensures HighZero(Append(b, a), Double(m))
  {
    if b { } else { }
  }

  lemma TopOfMask(a: bv32, m: bv32)
    requires HighZero(a, m) && Top(m)
    ensures !Top(a)
  {
  }

  lemma {:induction false} HighMaskBit(j: nat, m: nat, n: nat)
    requires n < m
    ensures TopBits(HighMask(j), m)[n] == Top(HighMask(j + n))
    decreases n
  {
    hide Top;
    hide Double;
    if n > 0 { HighMaskBit(j + 1, m - 1, n - 1); }
  }

  lemma AllOnesMeet(m: bv32)
    requires m != 0
    ensures Meets(0xffffffff, m)
  {
  }

  lemma HighMaskTop(n: nat)
    requires n <= 31
    ensures Top(HighMask(n))
  {
    assert HighMask(0) == 0xffffffff;
    hide Top;
    hide Meets;
    HighMaskBit(0, 32, n);
    MaskPicks(0xffffffff, 32, n);
    MaskIsXPow(n);
    XPowNonzero(n);
    AllOnesMeet(Mask(n));
  }

  lemma {:induction false} NumberHighZero(p: seq<bool>)
    ensures HighZero(Number(p), HighMask(|p|))
  {
    hide HighZero;
    hide Append;
    hide Double;
    if p == [] {
      HighZeroOfZero(HighMask(0));
    } else {
      NumberHighZero(p[1..]);
      AppendHighZero(p[0], Number(p[1..]), HighMask(|p| - 1));
    }
  }

  lemma HighZeroOfZero(m: bv32)
    ensures HighZero(0, m)
  {
  }

  // A word of at most 32 bits denotes its value times x^31.
  lemma {:induction false} NumberIsValue(p: seq<bool>)
    requires |p| <= 32
    ensures Number(p) == Scale(31, Val(p))
  {
    hide Append;
    hide Scale;
    hide Add;
    hide DivX;
    hide HighZero;
    hide Top;
    if p == [] {
      ShiftZero(Up, 31);
      ScaleDef(31, 0);
    } else {
      var a, v := Number(p[1..]), Val(p[1..]);
      var u := if p[0] then ONE else 0;
      NumberIsValue(p[1..]);
      NumberHighZero(p[1..]);
      HighMaskTop(|p| - 1);
      TopOfMask(a, HighMask(|p| - 1));
      AppendByDivX(p[0], a);
      assert Val(p) == Add(u, DivX(v));
      assert DivX(a) == Scale(31, DivX(v)) by { DivXIsScale(a); DivXIsScale(v); ScaleScale(-1, 31, v); ScaleScale(31, -1, v); }
      assert (if p[0] then 1 else 0) == Scale(31, u) by { X32(); ShiftZero(Up, 31); ScaleDef(31, u); }
      ScaleAdd(31, u, DivX(v));
    }
  }

  lemma ScaleDef(n: nat, v: bv32)
    ensures Scale(n, v) == Shift(Up, v, n)
  {
    hide Shift;
  }

  lemma DivXIsScale(v: bv32)
    ensures Scale(-1, v) == DivX(v)
  {
    hide DivX;
    assert Shift(Down, v, 1) == Step(Down, Shift(Down, v, 0));
  }

  lemma HalfRestores(a: bv32)
    ensures Append(Odd(a), Half(a)) == a
  {
    if a & 1 == 1 { } else { }
  }

  lemma {:induction false} NumberOfLowBits(a: bv32, n: nat)
    requires HighZero(a, HighMask(n)) && n <= 32
    ensures Number(LowBits(a, n)) == a
    decreases n
  {
    hide Append;
    hide Odd;
    hide Half;
    hide HighZero;
    hide Double;
    if n == 0 {
      AllOnesZero(a);
    } else {
      HalfHighZero(a, HighMask(n - 1));
      NumberOfLowBits(Half(a), n - 1);
      assert LowBits(a, n)[1..] == LowBits(Half(a), n - 1);
      HalfRestores(a);
    }
  }

  lemma AllOnesZero(a: bv32)
    requires HighZero(a, 0xffffffff)
    ensures a == 0
  {
  }

  lemma HalfHighZero(a: bv32, m: bv32)
    requires HighZero(a, Double(m))
    ensures HighZero(Half(a), m)
  {
  }

  // Writing a register as bits and reading the bits back.
  lemma WordValue(a: bv32)
    ensures Number(Word(a)) == a
    ensures Scale(31, Val(Word(a))) == a
  {
    hide Number;
    hide LowBits;
    hide Scale;
    hide Val;
    FullMask(a);
    NumberOfLowBits(a, 32);
    NumberIsValue(Word(a));
  }

  lemma FullMask(a: bv32)
    ensures HighZero(a, HighMask(32))
  {
    assert HighMask(8) == 0xffffff00;
    assert HighMask(16) == 0xffff0000;
    assert HighMask(24) == 0xff000000;
    assert HighMask(32) == 0;
  }

  // ----- carry-less multiplication of 64-bit words -----

  ghost predicate NoneFrom(p: seq<bool>, n: nat) {
    forall i: nat :: n <= i ==> !Coef(p, i)
  }

  lemma CoefPMulStep(p: seq<bool>, q: seq<bool>, i: nat)
    requires p != []
    ensures Coef(PMul(p, q), i) == ((p[0] && Coef(q, i)) != (i > 0 && Coef(PMul(p[1..], q), i - 1)))
  {
    hide PAdd;
    var r := PMul(p[1..], q);
    CoefPAdd(if p[0] then q else [], [false] + r, i);
    CoefTail(false, r, i);
  }

  lemma {:induction false} ZeroPMul(p: seq<bool>, q: seq<bool>, i: nat)
    requires NoneFrom(p, 0)
    ensures !Coef(PMul(p, q), i)
    decreases |p|
  {
    if p != [] {
      CoefPMulStep(p, q, i);
      assert !Coef(p, 0);
      assert forall j: nat :: Coef(p[1..], j) == Coef(p, j + 1);
      hide PMul;
      if i > 0 { ZeroPMul(p[1..], q, i - 1); }
    }
  }

  // Degrees add.
  lemma {:induction false} PMulDegree(p: seq<bool>, n: nat, q: seq<bool>, m: nat, i: nat)
    requires NoneFrom(p, n) && NoneFrom(q, m) && n + m <= i + 1
    ensures !Coef(PMul(p, q), i)
    decreases |p|
  {
    if n == 0 {
      ZeroPMul(p, q, i);
    } else if p != [] {
      CoefPMulStep(p, q, i);
      assert forall j: nat :: Coef(p[1..], j) == Coef(p, j + 1);
      hide PMul;
      if i > 0 { PMulDegree(p[1..], n - 1, q, m, i - 1); }
    }
  }

  // PCLMULQDQ: the 128-bit product of two 64-bit words.
  function Clmul(p: seq<bool>, q: seq<bool>): (r: seq<bool>)
    requires |p| == 64 && |q| == 64
    ensures |r| == 128
  {
    seq(128, i requires 0 <= i < 128 => Coef(PMul(p, q), i))
  }

  lemma ClmulFacts(p: seq<bool>, n: nat, q: seq<bool>, m: nat)
    requires |p| == 64 && |q| == 64 && NoneFrom(p, n) && NoneFrom(q, m) && 1 <= n + m <= 128
    ensures Val(Clmul(p, q)) == Mult(Val(p), Val(q))
    ensures NoneFrom(Clmul(p, q), n + m - 1)
  {
    forall i: nat | n + m - 1 <= i ensures !Coef(PMul(p, q), i) { PMulDegree(p, n, q, m, i); }
    var r := Clmul(p, q);
    forall i: nat ensures Coef(r, i) == Coef(PMul(p, q), i) {
      if i < 128 { assert r[i] == Coef(PMul(p, q), i); }
    }
    ValMul(p, q);
    ValSame(r, PMul(p, q));
  }

  lemma ValSame(p: seq<bool>, q: seq<bool>)
    requires Same(p, q)
    ensures Val(p) == Val(q)
  {
    ActSame(Down, p, q, ONE);
  }

  // Cutting a register at a position past its highest bit.
  lemma ValPrefix(v: seq<bool>, n: nat)
    requires n <= |v| && NoneFrom(v, n)
    ensures Val(v[..n]) == Val(v)
  {
    forall i: nat ensures Coef(v[..n], i) == Coef(v, i) { }
    ValSame(v[..n], v);
  }

  lemma ValSplit(v: seq<bool>, n: nat)
    requires n <= |v|
    ensures Val(v) == Add(Val(v[..n]), Scale(0 - n, Val(v[n..])))
  {
    hide Val;
    hide Scale;
    hide Add;
    assert v == v[..n] + v[n..];
    ValConcat(v[..n], v[n..]);
  }

  // _mm_set_epi32(0, 0, 0, a), and the low half of _mm_set_epi64x(0, a << 1).
  function Set32(a: bv32): (v: seq<bool>)
    ensures |v| == 128
  {
    Word(a) + Zeros(96)
  }

  function Shifted(a: bv32): (v: seq<bool>)
    ensures |v| == 64
  {
    [false] + Word(a) + Zeros(31)
  }

  lemma Set32Value(a: bv32)
    ensures NoneFrom(Set32(a), 32) && NoneFrom(Set32(a)[..64], 32)
    ensures Scale(31, Val(Set32(a))) == a && Scale(31, Val(Set32(a)[..64])) == a
  {
    hide Scale;
    hide LowBits;
    hide Val;
    var v := Set32(a);
    ValPrefix(v, 32);
    assert v[..32] == Word(a);
    ValPrefix(v, 64);
    WordValue(a);
  }

  lemma ShiftedValue(a: bv32)
    ensures NoneFrom(Shifted(a), 33)
    ensures Scale(32, Val(Shifted(a))) == a
  {
    hide Scale;
    hide LowBits;
    hide Val;
    var v := Shifted(a);
    ValPrefix(v, 33);
    assert v[..33] == [false] + Word(a);
    ValFalse(Word(a));
    WordValue(a);
    ScaleScale(32, -1, Val(Word(a)));
  }

  lemma ValFalse(p: seq<bool>)
    ensures Val([false] + p) == Scale(-1, Val(p))
  {
    hide Scale;
    hide Act;
    ValConcat([false], p);
    assert forall i: nat :: !Coef([false], i);
    ValZeros([false]);
    AddZero(Scale(-1, Val(p)));
  }

  // The CRC instruction on n zero bits multiplies by x^n.
  lemma {:induction false} CrcOfZeros(c: bv32, n: nat)
    ensures CrcBits(c, Zeros(n)) == Scale(n, c)
    decreases n
  {
    hide Add;
    hide MulX;
    if n > 0 {
      assert Zeros(n)[1..] == Zeros(n - 1);
      AddZero(c);
      CrcOfZeros(MulX(c), n - 1);
      ScaleScale(n - 1, 1, c);
      assert Shift(Up, c, 1) == Step(Up, Shift(Up, c, 0));
    }
  }

  // The CRC instruction on a word from a zero register.
  lemma {:induction false} CrcOfWord(p: seq<bool>)
    ensures CrcBits(0, p) == Scale(31 + |p|, Val(p))
  {
    hide Add;
    hide MulX;
    hide DivX;
    hide Scale;
    if p == [] {
      ScaleOfZero(31);
    } else {
      var u := if p[0] then ONE else 0;
      var q := p[1..];
      var n := |q|;
      CrcOfWord(q);
      CrcBitsFrom(CrcBit(0, p[0]), q);
      AddZero(if p[0] then 1 else 0);
      // the first bit has been shifted n + 1 times
      assert CrcBit(0, p[0]) == Scale(32, u) by {
        FirstBitValue();
        ScaleOfZero(32);
        StepZero(Up);
      }
      ScaleScale(n, 32, u);
      DivXIsScale(Val(q));
      ScaleScale(32 + n, -1, Val(q));
      ScaleAdd(32 + n, u, DivX(Val(q)));
    }
  }

  lemma ScaleOfZero(n: nat)
    ensures Scale(n, 0) == 0
  {
    ShiftZero(Up, n);
  }

  lemma FirstBitValue()
    ensures MulX(1) == Scale(32, ONE)
  {
    X32();
    assert XPow(32) == MulX(XPow(31));
  }

  lemma CrcBitsFrom(c: bv32, p: seq<bool>)
    ensures CrcBits(c, p) == Add(Scale(|p|, c), CrcBits(0, p))
  {
    hide Add;
    hide CrcBits;
    hide Scale;
    AddZero(c);
    ScaleDef(|p|, c);
    CrcBitsAdd(c, 0, p);
  }

  // ----- crc32mul_pclmul -----

  // Reducing 63 product bits: the low 31 go through the CRC instruction, the high 32 are added.
  lemma ReduceProduct(m: seq<bool>)
    requires |m| == 63
    ensures Add(CrcBits(Number([false] + m[..31]), Zeros(32)), Number(m[31..])) == Scale(62, Val(m))
  {
    hide *;
    var p, q := m[..31], m[31..];
    NumberIsValue([false] + p);
    ValFalse(p);
    ScaleScale(31, -1, Val(p));
    CrcOfZeros(Number([false] + p), 32);
    ScaleScale(32, 30, Val(p));
    NumberIsValue(q);
    ValSplit(m, 31);
    ScaleScale(62, -31, Val(q));
    ScaleAdd(62, Val(p), Scale(-31, Val(q)));
  }

  method MultPclmul(a: bv32, b: bv32) returns (r: bv32)
    ensures r == Mult(a, b)
  {
    hide Word;
    hide Val;
    hide Scale;
    hide Mult;
    hide Add;
    hide CrcBits;
    hide Number;
    hide PMul;
    var va, vb := Set32(a), Set32(b);
    var v := Clmul(va[..64], vb[..64]);
    var m := v[..64];
    var lo := Number(m[31..63]);
    var hi := Number([false] + m[..31]);
    r := Add(CrcBits(hi, Zeros(32)), lo);
    ProductValue(a, b, v[..63]);
    assert v[..63][31..] == m[31..63] && v[..63][..31] == m[..31];
    ReduceProduct(v[..63]);
  }

  lemma ProductValue(a: bv32, b: bv32, m: seq<bool>)
    requires m == Clmul(Set32(a)[..64], Set32(b)[..64])[..63]
    ensures Scale(62, Val(m)) == Mult(a, b)
  {
    hide Word;
    hide Val;
    hide Scale;
    hide Mult;
    hide PMul;
    var p, q := Set32(a)[..64], Set32(b)[..64];
    Set32Value(a);
    Set32Value(b);
    ClmulFacts(p, 32, q, 32);
    ValPrefix(Clmul(p, q), 63);
    ScaleMult(31, Val(p), Scale(31, Val(q)));
    ScaleMult(31, Val(p), Val(q));
    ScaleScale(31, 31, Mult(Val(p), Val(q)));
  }

  // ----- crc32ff_pclmul -----

  // After d digits (two or more count as two) the accumulator is unreduced: 32 * (d + 1) bits that stand
  // for a register once multiplied by x^(31 + 32 * d).
  ghost predicate Fits(v: seq<bool>, d: nat) { |v| == 128 && NoneFrom(v, 32 * d + 32) }

  ghost function Current(v: seq<bool>, d: nat): bv32 { Scale(31 + 32 * d, Val(v)) }

  function NarrowStep(v: seq<bool>, c0: bv32): (r: seq<bool>)
    requires |v| == 128
    ensures |r| == 128
  {
    Clmul(v[..64], Shifted(c0))
  }

  lemma NarrowStepFacts(v: seq<bool>, d: nat, c0: bv32)
    requires Fits(v, d) && d < 2
    ensures Fits(NarrowStep(v, c0), d + 1)
    ensures Current(NarrowStep(v, c0), d + 1) == Mult(Current(v, d), c0)
  {
    hide Shifted;
    hide Val;
    hide Scale;
    hide Mult;
    hide PMul;
    var p, k := v[..64], Shifted(c0);
    assert forall i: nat :: Coef(p, i) ==> Coef(v, i);
    ValPrefix(v, 64);
    ShiftedValue(c0);
    ClmulFacts(p, 32 * d + 32, k, 33);
    ScaleMult(31 + 32 * d, Val(p), Scale(32, Val(k)));
    ScaleMult(32, Val(p), Val(k));
    ScaleScale(31 + 32 * d, 32, Mult(Val(p), Val(k)));
  }

  function TwoLanes(w: seq<bool>, c0: bv32, c1: bv32): seq<bool>
    requires |w| == 128
  {
    PAdd(Clmul(w[64..], Shifted(c0)), Clmul(w[..64], Shifted(c1)))
  }

  function WideStep(v: seq<bool>, c0: bv32): seq<bool>
    requires |v| == 128
  {
    TwoLanes(Zeros(32) + v[..96], c0, CrcBits(c0, Zeros(64)))
  }

  lemma {:induction false} PAddLength(p: seq<bool>, q: seq<bool>)
    requires |p| == |q|
    ensures |PAdd(p, q)| == |p|
  {
    if p != [] { PAddLength(p[1..], q[1..]); }
  }

  lemma ValZerosThen(n: nat, p: seq<bool>)
    ensures Val(Zeros(n) + p) == Scale(0 - n, Val(p))
  {
    hide Val;
    hide Scale;
    hide Add;
    ValConcat(Zeros(n), p);
    assert forall i: nat :: !Coef(Zeros(n), i);
    ValZeros(Zeros(n));
    AddZero(Scale(0 - n, Val(p)));
  }

  // The low lane is 64 powers of x behind the high one; the second constant makes up for it.
  lemma LowLane(p: seq<bool>, c0: bv32, c1: bv32, w: seq<bool>)
    requires |p| == 32 && w == Zeros(32) + p && c1 == CrcBits(c0, Zeros(64))
    ensures Mult(Val(w), Val(Shifted(c1))) == Mult(Val(p), c0)
  {
    hide Shifted;
    hide Val;
    hide Scale;
    hide Mult;
    hide CrcBits;
    var k := Val(Shifted(c1));
    ValZerosThen(32, p);
    ShiftedValue(c1);
    CrcOfZeros(c0, 64);
    ScaleScale(-32, 32, k);
    ScaleScale(-32, 64, c0);
    ScaleZero(k);
    assert k == Scale(32, c0);
    ScaleMult(-32, Val(p), Scale(32, c0));
    ScaleMult(32, Val(p), c0);
    ScaleScale(-32, 32, Mult(Val(p), c0));
    ScaleZero(Mult(Val(p), c0));
  }

  lemma HighLane(p: seq<bool>, c0: bv32)
    ensures Mult(Val(p), Val(Shifted(c0))) == Mult(Scale(-32, Val(p)), c0)
  {
    hide Shifted;
    hide Val;
    hide Scale;
    hide Mult;
    var k := Val(Shifted(c0));
    ShiftedValue(c0);
    ScaleMult(-32, Val(p), c0);
    ScaleMult(32, Val(p), k);
    ScaleScale(-32, 32, Mult(Val(p), k));
    ScaleZero(Mult(Val(p), k));
  }

  lemma WideStepFacts(v: seq<bool>, c0: bv32)
    requires Fits(v, 2)
    ensures Fits(WideStep(v, c0), 2)
    ensures Current(WideStep(v, c0), 2) == Mult(Current(v, 2), c0)
  {
    hide Shifted;
    hide Val;
    hide Scale;
    hide Mult;
    hide PMul;
    hide PAdd;
    hide CrcBits;
    hide Clmul;
    var c1 := CrcBits(c0, Zeros(64));
    var w := Zeros(32) + v[..96];
    var lo, hi := Clmul(w[..64], Shifted(c1)), Clmul(w[64..], Shifted(c0));
    ShiftedValue(c0);
    ShiftedValue(c1);
    ClmulFacts(w[..64], 64, Shifted(c1), 33);
    ClmulFacts(w[64..], 64, Shifted(c0), 33);
    PAddLength(hi, lo);
    forall i: nat | 96 <= i ensures !Coef(PAdd(hi, lo), i) { CoefPAdd(hi, lo, i); }
    assert w[..64] == Zeros(32) + v[..32];
    assert w[64..] == v[..96][32..];
    LowLane(v[..32], c0, c1, w[..64]);
    HighLane(w[64..], c0);
    ValPAdd(hi, lo);
    WideStepValue(v, c0, Val(hi), Val(lo));
  }

  lemma ValPAdd(p: seq<bool>, q: seq<bool>)
    ensures Val(PAdd(p, q)) == Add(Val(p), Val(q))
  {
    ActPAdd(Down, p, q, ONE);
  }

  lemma WideStepValue(v: seq<bool>, c0: bv32, hi: bv32, lo: bv32)
    requires Fits(v, 2)
    requires lo == Mult(Val(v[..32]), c0) && hi == Mult(Scale(-32, Val(v[..96][32..])), c0)
    ensures Scale(95, Add(hi, lo)) == Mult(Scale(95, Val(v)), c0)
  {
    hide Val;
    hide Scale;
    hide Mult;
    hide Add;
    ValPrefix(v, 96);
    ValSplit(v[..96], 32);
    assert v[..96][..32] == v[..32];
    var p, q := Val(v[..32]), Scale(-32, Val(v[..96][32..]));
    MultAdd(c0, p, q);
    AddCommutes(hi, lo);
    ScaleMult(95, Val(v), c0);
  }

  lemma FinishNarrow(v: seq<bool>)
    requires Fits(v, 1)
    ensures Add(CrcBits(Number(v[..32]), Zeros(32)), Number(v[32..64])) == Current(v, 1)
  {
    hide Val;
    hide Scale;
    hide Add;
    hide CrcBits;
    hide Number;
    var p, q := v[..32], v[32..64];
    NumberIsValue(p);
    NumberIsValue(q);
    CrcOfZeros(Number(p), 32);
    ScaleScale(32, 31, Val(p));
    ValPrefix(v, 64);
    ValSplit(v[..64], 32);
    assert v[..64][..32] == p && v[..64][32..] == q;
    ScaleScale(63, -32, Val(q));
    ScaleAdd(63, Val(p), Scale(-32, Val(q)));
  }

  lemma FinishWide(v: seq<bool>)
    requires Fits(v, 2)
    ensures Add(CrcBits(0, v[..64]), Number(v[64..96])) == Current(v, 2)
  {
    hide Val;
    hide Scale;
    hide Add;
    hide CrcBits;
    hide Number;
    var p, q := v[..64], v[64..96];
    NumberIsValue(q);
    CrcOfWord(p);
    ValPrefix(v, 96);
    ValSplit(v[..96], 64);
    assert v[..96][..64] == p && v[..96][64..] == q;
    ScaleScale(95, -64, Val(q));
    ScaleAdd(95, Val(p), Scale(-64, Val(q)));
  }

  /** Fast-forward a checksum past len bytes with carry-less multiplication. */
  method FastForward(crc: bv32, len: nat, table: seq<bv32>) returns (r: bv32)
    requires len < TWO_64 && IsPowerTable(table)
    ensures r == Mult(crc, XPow(8 * len))
  {
    hide Tail;
    hide Small;
    hide Mult;
    hide XPow;
    hide IsPowerTable;
    hide Word;
    hide Fits;
    hide Current;
    hide NarrowStep;
    hide WideStep;
    hide CrcBits;
    hide Number;
    hide Add;
    var l := len;
    FoldFacts(len);
    if TWO_31 <= l {
      l := l % TWO_31 + l / TWO_31;
      if TWO_31 <= l {
        l := l % TWO_31 + l / TWO_31;
      }
    }
    if l == 0 {
      MultOne(crc);
      return crc;
    }
    StartFacts(crc);
    var v := Set32(crc);
    var i, d := 0, 0;
    while l != 0
      invariant 0 <= l && 0 <= i && Small(l, i)
      invariant 0 <= d <= 2 && (l == 0 ==> d > 0)
      invariant |v| == 128 && Fits(v, d)
      invariant Mult(Current(v, d), Tail(l, i)) == Mult(crc, Tail(len, 0))
      decreases l
    {
      TailSplit(l, i);
      if l % 64 != 0 {
        DigitInTable(table, l, i);
        var c0 := table[i * 64 + l % 64];
        MultAssoc(Current(v, d), c0, Tail(l / 64, i + 1));
        if d < 2 {
          NarrowStepFacts(v, d, c0);
          v := NarrowStep(v, c0);
          d := d + 1;
        } else {
          WideStepFacts(v, c0);
          FitsLength(WideStep(v, c0), 2);
          v := WideStep(v, c0);
        }
      }
      l, i := l / 64, i + 1;
    }
    TailOfZero(Current(v, d), i);
    if d < 2 {
      FinishNarrow(v);
      r := Add(CrcBits(Number(v[..32]), Zeros(32)), Number(v[32..64]));
    } else {
      FinishWide(v);
      r := Add(CrcBits(0, v[..64]), Number(v[64..96]));
    }
  }

  lemma FitsLength(v: seq<bool>, d: nat)
    requires Fits(v, d)
    ensures |v| == 128
  {
  }

  lemma StartFacts(crc: bv32)
    ensures Fits(Set32(crc), 0) && Current(Set32(crc), 0) == crc
  {
    hide Val;
    hide Scale;
    hide Word;
    Set32Value(crc);
  }

  /** CRC32Combine where carry-less multiplication is available: the same result as without it. */
  method CombinePclmul(crc1: bv32, crc2: bv32, size2: nat) returns (r: bv32)
    requires size2 < TWO_64
    ensures r == Combined(crc1, crc2, size2)
  {
    hide Add;
    hide Mult;
    hide XPow;
    hide IsPowerTable;
    TableIsPowerTable();
    var f := FastForward(crc1, size2, TABLE);
    MultCommutes(crc1, XPow(8 * size2));
    r := Add(f, crc2);
  }
}
