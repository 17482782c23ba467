/** Polynomials over GF(2) as coefficient lists, lowest power first, and division by the CRC32C
 *  generator.  `Reduce` sends a polynomial to a register; the results below say that it is the
 *  remainder map modulo the generator, so that registers with `Add` and `Mult` are GF(2)[x]/P.
 */
module Gf2Polynomial {
  import opened Gf2Register

  function PAdd(p: seq<bool>, q: seq<bool>): seq<bool> {
    if p == [] then q else if q == [] then p else [p[0] != q[0]] + PAdd(p[1..], q[1..])
  }

  function PMul(p: seq<bool>, q: seq<bool>): seq<bool> {
    if p == [] then [] else PAdd(if p[0] then q else [], [false] + PMul(p[1..], q))
  }

  predicate Coef(p: seq<bool>, i: nat) { i < |p| && p[i] }

  // Equality of polynomials: lists may differ in trailing zero coefficients.
  ghost predicate Same(p: seq<bool>, q: seq<bool>) {
    forall i: nat :: Coef(p, i) == Coef(q, i)
  }

  // 0x11EDC6F41, coefficient of x^0 first.
  const GENERATOR: seq<bool> :=
    [true, false, false, false, false, false, true, false,
     true, true, true, true, false, true, true, false,
     false, false, true, true, true, false, true, true,
     false, true, true, true, true, false, false, false,
     true]

  function Reduce(p: seq<bool>): bv32 { Act(Up, p, ONE) }

  // ----- the action respects the ring operations -----

  lemma {:induction false} ActPAdd(d: Dir, p: seq<bool>, q: seq<bool>, v: bv32)
    ensures Act(d, PAdd(p, q), v) == Add(Act(d, p, v), Act(d, q, v))
  {
    hide Add;
    hide Step;
    if p == [] {
      AddZero(Act(d, q, v));
    } else if q == [] {
      AddZero(Act(d, p, v));
    } else {
      var x, y := Act(d, p[1..], v), Act(d, q[1..], v);
      ActPAdd(d, p[1..], q[1..], v);
      StepAdd(d, x, y);
      AddSwap(if p[0] then v else 0, Step(d, x), if q[0] then v else 0, Step(d, y));
      AddZero(v);
      AddZero(0);
    }
  }

  lemma {:induction false} ActPMul(d: Dir, p: seq<bool>, q: seq<bool>, v: bv32)
    ensures Act(d, PMul(p, q), v) == Act(d, p, Act(d, q, v))
  {
    hide Add;
    hide Step;
    hide PAdd;
    if p != [] {
      var r := PMul(p[1..], q);
      ActPMul(d, p[1..], q, v);
      ActPAdd(d, if p[0] then q else [], [false] + r, v);
      assert ([false] + r)[1..] == r;
      AddZero(Step(d, Act(d, r, v)));
    }
  }

  lemma {:induction false} ActZeros(d: Dir, p: seq<bool>, v: bv32)
    requires forall i: nat :: !Coef(p, i)
    ensures Act(d, p, v) == 0
  {
    hide Add;
    hide Step;
    if p != [] {
      assert !Coef(p, 0);
      assert forall i: nat :: Coef(p[1..], i) == Coef(p, i + 1);
      ActZeros(d, p[1..], v);
      StepZero(d);
      AddZero(0);
    }
  }

  lemma {:induction false} ActSame(d: Dir, p: seq<bool>, q: seq<bool>, v: bv32)
    requires Same(p, q)
    ensures Act(d, p, v) == Act(d, q, v)
    decreases |p| + |q|
  {
    hide Add;
    hide Step;
    if p == [] {
      ActZeros(d, q, v);
    } else if q == [] {
      ActZeros(d, p, v);
    } else {
      assert Coef(p, 0) == Coef(q, 0);
      forall i: nat ensures Coef(p[1..], i) == Coef(q[1..], i) {
        assert Coef(p[1..], i) == Coef(p, i + 1) == Coef(q, i + 1) == Coef(q[1..], i);
      }
      ActSame(d, p[1..], q[1..], v);
    }
  }

  // Reducing is a ring homomorphism onto the registers.
  lemma ReduceHomomorphism(p: seq<bool>, q: seq<bool>)
    ensures Reduce(PAdd(p, q)) == Add(Reduce(p), Reduce(q))
    ensures Reduce(PMul(p, q)) == Mult(Reduce(p), Reduce(q))
  {
    hide Add;
    hide Mult;
    hide Act;
    hide PAdd;
    hide PMul;
    ActPAdd(Up, p, q, ONE);
    ActPMul(Up, p, q, ONE);
    ActByValue(Up, p, Act(Up, q, ONE));
  }

  // ----- coefficients -----

  lemma {:induction false} CoefPAdd(p: seq<bool>, q: seq<bool>, i: nat)
    ensures Coef(PAdd(p, q), i) == (Coef(p, i) != Coef(q, i))
  {
    if p != [] && q != [] {
      assert PAdd(p, q)[1..] == PAdd(p[1..], q[1..]);
      if i > 0 { CoefPAdd(p[1..], q[1..], i - 1); }
    }
  }

  // ----- long division by the generator -----

  function Zeros(n: nat): (p: seq<bool>)
    ensures |p| == n && forall i | 0 <= i < n :: !p[i]
  {
    seq(n, _ => false)
  }

  // A monic polynomial of degree 32.
  predicate Monic32(g: seq<bool>) { |g| == 33 && g[32] }

  // x * r reduced by g, for a remainder r of 32 coefficients.
  function XTimesRemainder(r: seq<bool>, g: seq<bool>): (s: seq<bool>)
    requires |r| == 32 && Monic32(g)
    ensures |s| == 32
  {
    seq(32, i requires 0 <= i < 32 => (i > 0 && r[i - 1]) != (r[31] && g[i]))
  }

  // Schoolbook long division: the quotient and the remainder of p by g.
  function Divide(p: seq<bool>, g: seq<bool>): (qr: (seq<bool>, seq<bool>))
    requires Monic32(g)
    ensures |qr.1| == 32
    decreases |p|
  {
    if p == [] then ([], Zeros(32)) else
      var (q, r) := Divide(p[1..], g);
      var s := XTimesRemainder(r, g);
      ([r[31]] + q, s[0 := s[0] != p[0]])
  }

  lemma CoefTail(b: bool, m: seq<bool>, i: nat)
    ensures Coef([b] + m, i) == if i == 0 then b else Coef(m, i - 1)
  {
  }

  lemma {:induction false} DivideCoef(p: seq<bool>, g: seq<bool>, i: nat)
    requires Monic32(g)
    ensures Coef(p, i) == (Coef(PMul(Divide(p, g).0, g), i) != Coef(Divide(p, g).1, i))
    decreases |p|
  {
    if p != [] {
      var (q, r) := Divide(p[1..], g);
      assert ([r[31]] + q)[1..] == q;
      var m := PMul(q, g);
      assert Coef(PMul([r[31]] + q, g), i) == Coef(PAdd(if r[31] then g else [], [false] + m), i);
      CoefPAdd(if r[31] then g else [], [false] + m, i);
      CoefTail(false, m, i);
      hide PAdd;
      hide PMul;
      if i > 0 {
        assert Coef(p, i) == Coef(p[1..], i - 1);
        DivideCoef(p[1..], g, i - 1);
      }
    }
  }

  // Four Horner steps at 1.
  function HornerStep(b: bool, r: bv32): bv32 { Add(if b then ONE else 0, MulX(r)) }

  function Horner4(b0: bool, b1: bool, b2: bool, b3: bool, r: bv32): bv32 {
    HornerStep(b0, HornerStep(b1, HornerStep(b2, HornerStep(b3, r))))
  }

  lemma ActCons(d: Dir, b: bool, q: seq<bool>, v: bv32)
    ensures Act(d, [b] + q, v) == Add(if b then v else 0, Step(d, Act(d, q, v)))
  {
    hide Add;
    hide Step;
    assert ([b] + q)[1..] == q;
  }

  lemma ReduceBy4(b0: bool, b1: bool, b2: bool, b3: bool, q: seq<bool>)
    ensures Reduce([b0, b1, b2, b3] + q) == Horner4(b0, b1, b2, b3, Reduce(q))
  {
    hide Add;
    hide MulX;
    hide Act;
    ActCons(Up, b3, q, ONE);
    ActCons(Up, b2, [b3] + q, ONE);
    ActCons(Up, b1, [b2] + ([b3] + q), ONE);
    ActCons(Up, b0, [b1] + ([b2] + ([b3] + q)), ONE);
    assert [b0, b1, b2, b3] + q == [b0] + ([b1] + ([b2] + ([b3] + q)));
  }

  lemma GeneratorHorner()
    ensures Horner4(true, false, false, false, 0x80000000) == 0x88000000
    ensures Horner4(false, true, true, true, 0x88000000) == 0x78800000
    ensures Horner4(true, false, true, true, 0x78800000) == 0xb7880000
    ensures Horner4(false, false, true, true, 0xb7880000) == 0x3b788000
    ensures Horner4(false, true, true, false, 0x3b788000) == 0x63b78800
    ensures Horner4(true, true, true, true, 0x63b78800) == 0xf63b7880
    ensures Horner4(false, false, true, false, 0xf63b7880) == 0x2f63b788
    ensures Horner4(true, false, false, false, 0x2f63b788) == 0x00000000
  {
  }

  // The generator reduces to zero.
  lemma GeneratorVanishes()
    ensures Reduce(GENERATOR) == 0
  {
    hide Reduce;
    hide Horner4;
    GeneratorHorner();
    ActUnit();
    ReduceBy4(true, false, false, false, [true]);
    var g28 := [true, false, false, false] + [true];
    ReduceBy4(false, true, true, true, g28);
    var g24 := [false, true, true, true] + g28;
    ReduceBy4(true, false, true, true, g24);
    var g20 := [true, false, true, true] + g24;
    ReduceBy4(false, false, true, true, g20);
    var g16 := [false, false, true, true] + g20;
    ReduceBy4(false, true, true, false, g16);
    var g12 := [false, true, true, false] + g16;
    ReduceBy4(true, true, true, true, g12);
    var g8 := [true, true, true, true] + g12;
    ReduceBy4(false, false, true, false, g8);
    var g4 := [false, false, true, false] + g8;
    ReduceBy4(true, false, false, false, g4);
    var g0 := [true, false, false, false] + g4;
    assert GENERATOR == g0;
  }

  lemma ActUnit()
    ensures Reduce([true]) == ONE
  {
    hide Step;
    StepZero(Up);
  }

  lemma X32()
    ensures XPow(31) == 1
    ensures XPow(32) == 0x82f63b78
  {
    assert XPow(8) == 0x800000;
    assert XPow(16) == 0x8000;
    assert XPow(24) == 0x80;
    assert XPow(31) == 1;
  }

  // ----- a list of 32 coefficients is determined by its value -----

  predicate Within(p: bv32, m: bv32) { p & m == p }

  lemma WithinWiden(p: bv32, m: bv32)
    requires Within(p, m)
    ensures Within(Widen(p), Widen(m))
  {
  }

  lemma WithinZero(m: bv32)
    ensures Within(0, m)
  {
  }

  lemma {:induction false} LowMaskNested(m: nat, n: nat)
    requires m <= n
    ensures Within(LowMask(m), LowMask(n))
  {
    hide Within;
    hide Widen;
    if m == 0 {
      WithinZero(LowMask(n));
    } else {
      LowMaskNested(m - 1, n - 1);
      WithinWiden(LowMask(m - 1), LowMask(n - 1));
    }
  }

  lemma MaskDisjoint(a: bv32, p: bv32, m: bv32)
    requires a & m == 0 && Within(p, m)
    ensures a & p == 0
  {
  }

  lemma LowZeroOne(k: nat)
    requires k <= 31
    ensures LowZero(ONE, k)
  {
    assert LowMask(8) == 0xff;
    assert LowMask(16) == 0xffff;
    assert LowMask(24) == 0xffffff;
    assert LowMask(31) == 0x7fffffff;
    LowMaskNested(k, 31);
    hide LowMask;
    hide Within;
    MaskDisjoint(ONE, LowMask(k), 0x7fffffff);
  }

  lemma MaskXor(a: bv32, b: bv32, s: bv32, m: bv32)
    requires a & m == 0 && b & m == 0 && s == Add(a, b)
    ensures s & m == 0
  {
  }

  lemma LowZeroAdd(a: bv32, b: bv32, k: nat)
    requires LowZero(a, k) && LowZero(b, k)
    ensures LowZero(Add(a, b), k)
  {
    hide LowMask;
    hide Add;
    MaskXor(a, b, Add(a, b), LowMask(k));
  }

  lemma MaskHalf(a: bv32, m: bv32)
    requires a & Widen(m) == 0
    ensures (a >> 1) & m == 0
  {
  }

  lemma MaskEven(a: bv32, m: bv32)
    requires a & Widen(m) == 0
    ensures a & 1 == 0
  {
  }

  lemma HalfHasNoTop(a: bv32)
    ensures !Top(a >> 1)
  {
  }

  // A register without a highest coefficient is multiplied by x without wrapping.
  lemma MulXNoWrap(v: bv32, k: nat)
    requires LowZero(v, k + 1)
    ensures LowZero(MulX(v), k) && !Top(MulX(v)) && Double(MulX(v)) == v
  {
    var m := LowMask(k);
    MaskEven(v, m);
    MaskHalf(v, m);
    assert MulX(v) == v >> 1;
    assert LowZero(v >> 1, k);
    HalfHasNoTop(v);
    DivXMulX(v);
    DivXOfNoTop(v >> 1);
    hide *;
  }

  lemma TopOfAdd(a: bv32, b: bv32)
    ensures Top(Add(a, b)) == (Top(a) != Top(b))
  {
  }

  lemma DoubleOfAdd(a: bv32, b: bv32)
    ensures Double(Add(a, b)) == Add(Double(a), Double(b))
  {
  }

  lemma TopOfOne()
    ensures Top(ONE) && Double(ONE) == 0 && !Top(0) && Double(0) == 0
  {
  }

  lemma {:induction false} BitsOfValueN(r: seq<bool>, k: nat)
    requires |r| + k == 32
    ensures LowZero(Act(Up, r, ONE), k)
    ensures TopBits(Act(Up, r, ONE), |r|) == r
    decreases |r|
  {
    hide Add;
    hide MulX;
    hide Top;
    hide Double;
    if r == [] {
      assert LowZero(0, k) by { hide LowMask; }
    } else {
      hide LowZero;
      var v := Act(Up, r[1..], ONE);
      BitsOfValueN(r[1..], k + 1);
      MulXNoWrap(v, k);
      var c, m := if r[0] then ONE else 0, MulX(v);
      LowZeroOne(k);
      assert LowZero(0, k) by { LowZeroOfZero(k); }
      LowZeroAdd(c, m, k);
      TopOfOne();
      TopOfAdd(c, m);
      DoubleOfAdd(c, m);
      AddZero(v);
      assert r == [r[0]] + r[1..];
    }
  }

  lemma LowZeroOfZero(k: nat)
    ensures LowZero(0, k)
  {
    hide LowMask;
  }

  lemma BitsOfValue(r: seq<bool>)
    requires |r| == 32
    ensures TopBits(Reduce(r), 32) == r
  {
    BitsOfValueN(r, 0);
  }

  // ----- registers are the residues modulo the generator -----

  // p = q * GENERATOR + r for some q.
  ghost predicate IsResidue(p: seq<bool>, r: seq<bool>) {
    exists q: seq<bool> :: Same(p, PAdd(PMul(q, GENERATOR), r))
  }

  lemma ReduceOfMultiple(q: seq<bool>, r: seq<bool>)
    ensures Reduce(PAdd(PMul(q, GENERATOR), r)) == Reduce(r)
  {
    hide Add;
    hide Mult;
    hide Reduce;
    ReduceHomomorphism(PMul(q, GENERATOR), r);
    ReduceHomomorphism(q, GENERATOR);
    GeneratorVanishes();
    MultZero(Reduce(q));
    AddZero(Reduce(r));
  }

  // The 32 coefficients of Reduce(p) are the one remainder of p on division by the generator.
  lemma ReduceIsRemainder(p: seq<bool>, r: seq<bool>)
    requires |r| == 32
    ensures IsResidue(p, r) <==> r == TopBits(Reduce(p), 32)
  {
    hide TopBits;
    if IsResidue(p, r) {
      var q: seq<bool> :| Same(p, PAdd(PMul(q, GENERATOR), r));
      ActSame(Up, p, PAdd(PMul(q, GENERATOR), r), ONE);
      ReduceOfMultiple(q, r);
      BitsOfValue(r);
    }
    if r == TopBits(Reduce(p), 32) {
      var (q, s) := Divide(p, GENERATOR);
      forall i: nat ensures Coef(p, i) == Coef(PAdd(PMul(q, GENERATOR), s), i) {
        DivideCoef(p, GENERATOR, i);
        CoefPAdd(PMul(q, GENERATOR), s, i);
      }
      ActSame(Up, p, PAdd(PMul(q, GENERATOR), s), ONE);
      ReduceOfMultiple(q, s);
      BitsOfValue(s);
    }
  }

  // Multiplying registers is multiplying their polynomials modulo the generator.
  lemma MultIsModular(a: bv32, b: bv32)
    ensures IsResidue(PMul(TopBits(a, 32), TopBits(b, 32)), TopBits(Mult(a, b), 32))
  {
    hide Mult;
    hide Reduce;
    hide TopBits;
    var p, q := TopBits(a, 32), TopBits(b, 32);
    assert Reduce(p) == a && Reduce(q) == b by { TopBitsValue(a); TopBitsValue(b); ReduceDef(p); ReduceDef(q); }
    ReduceHomomorphism(p, q);
    ReduceIsRemainder(PMul(p, q), TopBits(Mult(a, b), 32));
  }

  lemma ReduceDef(p: seq<bool>)
    ensures Reduce(p) == Act(Up, p, ONE)
  {
    hide Act;
  }
}
