/** The 32-bit CRC32C register as an element of GF(2)[x]/P.
 *
 *  P is the CRC32C generator 0x11EDC6F41.  Registers are bit-reflected: bit 31 holds the coefficient
 *  of x^0 and bit 0 the coefficient of x^31.  Addition is exclusive-or, and multiplication by x is a
 *  right shift followed by a conditional subtraction of the (reflected) generator.
 *
 *  `Act` lets a list of coefficients, a polynomial in x or in 1/x, act on a register.  Everything
 *  the checksum code computes is an instance of this action.
 */
module Gf2Register {

  const ONE: bv32 := 0x80000000   // x^0 in reflected form

  function Add(a: bv32, b: bv32): bv32 { a ^ b }

  // Multiplication by x.
  function MulX(b: bv32): bv32 {
    if b & 1 == 1 then (b >> 1) ^ 0x82f63b78 else b >> 1
  }

  // Multiplication by 1/x; P has constant term 1, so x is invertible.
  function DivX(b: bv32): bv32 {
    if b & 0x80000000 != 0 then ((b ^ 0x82f63b78) << 1) | 1 else b << 1
  }

  datatype Dir = Up | Down

  function Step(d: Dir, v: bv32): bv32 {
    if d.Up? then MulX(v) else DivX(v)
  }

  // v * x^n or v * x^-n
  function Shift(d: Dir, v: bv32, n: nat): bv32 {
    if n == 0 then v else Step(d, Shift(d, v, n - 1))
  }

  function XPow(n: nat): bv32 { Shift(Up, ONE, n) }

  // The polynomial with coefficients p (p[i] belongs to the i-th power) applied to v.
  function Act(d: Dir, p: seq<bool>, v: bv32): bv32 {
    if p == [] then 0 else Add(if p[0] then v else 0, Step(d, Act(d, p[1..], v)))
  }

  // The constant term of a register, and the register shifted past it.
  predicate Top(a: bv32) { a & 0x80000000 != 0 }

  function Double(a: bv32): bv32 { a << 1 }

  // The coefficients of a register, lowest power first: bit 31 down to bit 32 - n.
  function TopBits(a: bv32, n: nat): (p: seq<bool>)
    ensures |p| == n
    decreases n
  {
    if n == 0 then [] else [Top(a)] + TopBits(Double(a), n - 1)
  }

  // The product of two registers: the polynomial of the first applied to the second.
  function Mult(a: bv32, b: bv32): bv32 { Act(Up, TopBits(a, 32), b) }

  // ----- the additive group -----

  lemma AddAssoc(a: bv32, b: bv32, c: bv32)
    ensures Add(Add(a, b), c) == Add(a, Add(b, c))
  {
  }

  lemma AddCommutes(a: bv32, b: bv32)
    ensures Add(a, b) == Add(b, a)
  {
  }

  lemma AddZero(a: bv32)
    ensures Add(a, 0) == a && Add(0, a) == a && Add(a, a) == 0
  {
  }

  lemma AddSwap(a: bv32, b: bv32, c: bv32, d: bv32)
    ensures Add(Add(a, b), Add(c, d)) == Add(Add(a, c), Add(b, d))
  {
    hide Add;
    AddAssoc(a, b, Add(c, d));
    AddAssoc(b, c, d);
    AddCommutes(b, c);
    AddAssoc(c, b, d);
    AddAssoc(a, c, Add(b, d));
  }

  // ----- multiplication by x and its inverse -----

  lemma MulXOfXor(a: bv32, b: bv32)
    ensures MulX(a ^ b) == MulX(a) ^ MulX(b)
  {
    if {
      case a & 1 == 1 && b & 1 == 1 =>
      case a & 1 == 1 && b & 1 == 0 =>
      case a & 1 == 0 && b & 1 == 1 =>
      case a & 1 == 0 && b & 1 == 0 =>
    }
  }

  lemma MulXAdd(a: bv32, b: bv32)
    ensures MulX(Add(a, b)) == Add(MulX(a), MulX(b))
  {
    MulXOfXor(a, b);
    assert Add(a, b) == a ^ b;
    assert Add(MulX(a), MulX(b)) == MulX(a) ^ MulX(b) by { hide MulX; }
    hide Add;
    hide MulX;
  }

  lemma OddRotation(a: bv32, r: bv32)
    requires a & 1 == 1
    requires r == (a >> 1) ^ 0x82f63b78
    ensures r & 0x80000000 != 0
    ensures ((r ^ 0x82f63b78) << 1) | 1 == a
  {
  }

  lemma EvenRotation(a: bv32, r: bv32)
    requires a & 1 == 0
    requires r == a >> 1
    ensures r & 0x80000000 == 0
    ensures r << 1 == a
  {
  }

  lemma DivXMulX(a: bv32)
    ensures DivX(MulX(a)) == a
  {
    var r := MulX(a);
    if a & 1 == 1 {
      OddRotation(a, r);
      hide MulX;
    } else {
      assert a & 1 == 0;
      EvenRotation(a, r);
      hide MulX;
    }
  }

  lemma HighRotation(a: bv32, r: bv32)
    requires a & 0x80000000 != 0
    requires r == ((a ^ 0x82f63b78) << 1) | 1
    ensures r & 1 == 1
    ensures (r >> 1) ^ 0x82f63b78 == a
  {
  }

  lemma LowRotation(a: bv32, r: bv32)
    requires a & 0x80000000 == 0
    requires r == a << 1
    ensures r & 1 == 0
    ensures r >> 1 == a
  {
  }

  lemma MulXDivX(a: bv32)
    ensures MulX(DivX(a)) == a
  {
    var r := DivX(a);
    if a & 0x80000000 != 0 {
      HighRotation(a, r);
      hide DivX;
    } else {
      LowRotation(a, r);
      hide DivX;
    }
  }

  lemma DivXAdd(a: bv32, b: bv32)
    ensures DivX(Add(a, b)) == Add(DivX(a), DivX(b))
  {
    hide Add;
    hide MulX;
    hide DivX;
    MulXAdd(DivX(a), DivX(b));
    MulXDivX(a);
    MulXDivX(b);
    DivXMulX(Add(DivX(a), DivX(b)));
  }

  lemma StepZero(d: Dir)
    ensures Step(d, 0) == 0
  {
  }

  lemma StepAdd(d: Dir, a: bv32, b: bv32)
    ensures Step(d, Add(a, b)) == Add(Step(d, a), Step(d, b))
  {
    hide Add;
    hide MulX;
    hide DivX;
    MulXAdd(a, b);
    DivXAdd(a, b);
  }

  lemma StepsCommute(d: Dir, e: Dir, v: bv32)
    ensures Step(d, Step(e, v)) == Step(e, Step(d, v))
  {
    hide MulX;
    hide DivX;
    MulXDivX(v);
    DivXMulX(v);
  }

  lemma StepCancels(d: Dir, e: Dir, v: bv32)
    requires d != e
    ensures Step(d, Step(e, v)) == v
  {
    hide MulX;
    hide DivX;
    MulXDivX(v);
    DivXMulX(v);
  }

  // ----- the action -----

  lemma {:induction false} ActAdd(d: Dir, p: seq<bool>, v: bv32, w: bv32)
    ensures Act(d, p, Add(v, w)) == Add(Act(d, p, v), Act(d, p, w))
  {
    hide Add;
    hide Step;
    AddZero(0);
    if p != [] {
      var x, y := Act(d, p[1..], v), Act(d, p[1..], w);
      ActAdd(d, p[1..], v, w);
      StepAdd(d, x, y);
      AddSwap(if p[0] then v else 0, Step(d, x), if p[0] then w else 0, Step(d, y));
    }
  }

  lemma {:induction false} ActZero(d: Dir, p: seq<bool>)
    ensures Act(d, p, 0) == 0
  {
    hide Add;
    hide Step;
    AddZero(0);
    StepZero(d);
    if p != [] { ActZero(d, p[1..]); }
  }

  lemma {:induction false} ActStep(d: Dir, e: Dir, p: seq<bool>, v: bv32)
    ensures Act(d, p, Step(e, v)) == Step(e, Act(d, p, v))
  {
    hide Add;
    hide Step;
    StepZero(e);
    if p != [] {
      var x := Act(d, p[1..], v);
      ActStep(d, e, p[1..], v);
      StepsCommute(d, e, x);
      StepAdd(e, if p[0] then v else 0, Step(d, x));
    }
  }

  lemma {:induction false} ActsCommute(d: Dir, e: Dir, p: seq<bool>, q: seq<bool>, v: bv32)
    ensures Act(d, p, Act(e, q, v)) == Act(e, q, Act(d, p, v))
    decreases q
  {
    hide Add;
    hide Step;
    if q == [] {
      ActZero(d, p);
    } else {
      var x := Act(e, q[1..], v);
      ActsCommute(d, e, p, q[1..], v);
      ActAdd(d, p, if q[0] then v else 0, Step(e, x));
      ActStep(d, e, p, x);
      ActZero(d, p);
    }
  }

  lemma {:induction false} ActConcat(d: Dir, p: seq<bool>, q: seq<bool>, v: bv32)
    ensures Act(d, p + q, v) == Add(Act(d, p, v), Shift(d, Act(d, q, v), |p|))
  {
    hide Add;
    hide Step;
    if p == [] {
      assert p + q == q;
      AddZero(Act(d, q, v));
    } else {
      assert (p + q)[1..] == p[1..] + q;
      var x, y := Act(d, p[1..], v), Shift(d, Act(d, q, v), |p| - 1);
      ActConcat(d, p[1..], q, v);
      StepAdd(d, x, y);
      AddAssoc(if p[0] then v else 0, Step(d, x), Step(d, y));
    }
  }

  lemma {:induction false} ActShift(d: Dir, e: Dir, p: seq<bool>, v: bv32, n: nat)
    ensures Act(d, p, Shift(e, v, n)) == Shift(e, Act(d, p, v), n)
  {
    hide Step;
    if n > 0 {
      ActShift(d, e, p, v, n - 1);
      ActStep(d, e, p, Shift(e, v, n - 1));
    }
  }

  // ----- every register is its own polynomial applied to 1 -----

  function Widen(m: bv32): bv32 { (m << 1) | 1 }

  // The n low bits.
  function LowMask(n: nat): bv32 {
    if n == 0 then 0 else Widen(LowMask(n - 1))
  }

  predicate LowZero(a: bv32, n: nat) { a & LowMask(n) == 0 }

  lemma MaskPeel(a: bv32, mask: bv32)
    requires a & mask == 0
    ensures Double(a) & Widen(mask) == 0
  {
  }

  lemma LowZeroDouble(a: bv32, n: nat)
    requires LowZero(a, n)
    ensures LowZero(Double(a), n + 1)
  {
    hide Double;
    hide Widen;
    MaskPeel(a, LowMask(n));
  }

  lemma LowZeroFull(a: bv32)
    requires LowZero(a, 32)
    ensures a == 0
  {
    assert LowMask(8) == 0xff;
    assert LowMask(16) == 0xffff;
    assert LowMask(24) == 0xffffff;
    assert LowMask(32) == 0xffffffff;
    hide LowMask;
  }

  lemma DivXOfTop(a: bv32)
    requires Top(a)
    ensures DivX(Add(a, ONE)) == Double(a)
  {
  }

  lemma DivXOfNoTop(a: bv32)
    requires !Top(a)
    ensures DivX(a) == Double(a)
  {
  }

  // Dropping the constant term and multiplying back by x restores the register.
  lemma TopSplit(a: bv32)
    ensures Add(if Top(a) then ONE else 0, MulX(Double(a))) == a
  {
    hide *;
    if Top(a) {
      var b := Add(a, ONE);
      DivXOfTop(a);
      MulXDivX(b);
      AddCommutes(a, ONE);
      AddAssoc(ONE, ONE, a);
      AddZero(ONE);
      AddZero(a);
    } else {
      DivXOfNoTop(a);
      MulXDivX(a);
      AddZero(a);
    }
  }

  lemma {:induction false} TopBitsValueN(a: bv32, n: nat, k: nat)
    requires n + k == 32
    requires LowZero(a, k)
    ensures Act(Up, TopBits(a, n), ONE) == a
    decreases n
  {
    hide Add;
    hide MulX;
    hide Top;
    hide Double;
    hide LowZero;
    if n == 0 {
      LowZeroFull(a);
    } else {
      LowZeroDouble(a, k);
      TopBitsValueN(Double(a), n - 1, k + 1);
      TopSplit(a);
    }
  }

  lemma TopBitsValue(a: bv32)
    ensures Act(Up, TopBits(a, 32), ONE) == a
  {
    TopBitsValueN(a, 32, 0);
  }

  // ----- the ring -----

  // A register acts exactly as any polynomial with the same value does.
  lemma ActByValue(d: Dir, p: seq<bool>, v: bv32)
    ensures Act(d, p, v) == Mult(Act(d, p, ONE), v)
    ensures Act(d, p, v) == Mult(v, Act(d, p, ONE))
  {
    hide Act;
    var c := Act(d, p, ONE);
    TopBitsValue(v);
    TopBitsValue(c);
    ActsCommute(d, Up, p, TopBits(v, 32), ONE);
    ActsCommute(Up, Up, TopBits(v, 32), TopBits(c, 32), ONE);
  }

  lemma MultCommutes(a: bv32, b: bv32)
    ensures Mult(a, b) == Mult(b, a)
  {
    hide Act;
    TopBitsValue(a);
    ActByValue(Up, TopBits(a, 32), b);
  }

  lemma MultAssoc(a: bv32, b: bv32, c: bv32)
    ensures Mult(Mult(a, b), c) == Mult(a, Mult(b, c))
  {
    hide Act;
    MultCommutes(Mult(a, b), c);
    ActsCommute(Up, Up, TopBits(c, 32), TopBits(a, 32), b);
    MultCommutes(b, c);
  }

  lemma MultAdd(a: bv32, b: bv32, c: bv32)
    ensures Mult(a, Add(b, c)) == Add(Mult(a, b), Mult(a, c))
    ensures Mult(Add(b, c), a) == Add(Mult(b, a), Mult(c, a))
  {
    hide Act;
    hide Add;
    ActAdd(Up, TopBits(a, 32), b, c);
    MultCommutes(a, Add(b, c));
    MultCommutes(a, b);
    MultCommutes(a, c);
  }

  lemma MultOne(a: bv32)
    ensures Mult(a, ONE) == a && Mult(ONE, a) == a
  {
    hide Act;
    TopBitsValue(a);
    MultCommutes(a, ONE);
  }

  lemma MultZero(a: bv32)
    ensures Mult(a, 0) == 0 && Mult(0, a) == 0
  {
    hide Act;
    ActZero(Up, TopBits(a, 32));
    MultCommutes(a, 0);
  }

  // ----- powers of x -----

  lemma MultShift(a: bv32, b: bv32, d: Dir, n: nat)
    ensures Mult(a, Shift(d, b, n)) == Shift(d, Mult(a, b), n)
    ensures Mult(Shift(d, a, n), b) == Shift(d, Mult(a, b), n)
  {
    hide Act;
    hide Shift;
    ActShift(Up, d, TopBits(a, 32), b, n);
    ActShift(Up, d, TopBits(b, 32), a, n);
    MultCommutes(Shift(d, a, n), b);
    MultCommutes(a, b);
  }

  lemma {:induction false} ShiftShift(d: Dir, v: bv32, m: nat, n: nat)
    ensures Shift(d, Shift(d, v, m), n) == Shift(d, v, m + n)
  {
    hide Step;
    if n > 0 { ShiftShift(d, v, m, n - 1); }
  }

  lemma {:induction false} ShiftsCommute(d: Dir, e: Dir, v: bv32, m: nat, n: nat)
    ensures Shift(d, Shift(e, v, m), n) == Shift(e, Shift(d, v, n), m)
    decreases m + n
  {
    hide Step;
    if m > 0 && n > 0 {
      // peel both outermost steps
      ShiftsCommute(d, e, v, m, n - 1);
      ShiftsCommute(d, e, v, m - 1, n);
      ShiftsCommute(d, e, v, m - 1, n - 1);
      StepsCommute(d, e, Shift(d, Shift(e, v, m - 1), n - 1));
    }
  }

  lemma {:induction false} ShiftCancels(d: Dir, e: Dir, v: bv32, n: nat)
    requires d != e
    ensures Shift(d, Shift(e, v, n), n) == v
  {
    hide Step;
    if n > 0 {
      ShiftCancels(d, e, v, n - 1);
      ShiftsCommute(d, e, v, n, n - 1);
      ShiftsCommute(d, e, v, n - 1, n - 1);
      StepCancels(d, e, Shift(d, Shift(e, v, n - 1), n - 1));
    }
  }

  lemma {:induction false} ShiftAdd(d: Dir, v: bv32, w: bv32, n: nat)
    ensures Shift(d, Add(v, w), n) == Add(Shift(d, v, n), Shift(d, w, n))
  {
    hide Step;
    hide Add;
    if n > 0 {
      ShiftAdd(d, v, w, n - 1);
      StepAdd(d, Shift(d, v, n - 1), Shift(d, w, n - 1));
    }
  }

  lemma MultXPow(v: bv32, n: nat)
    ensures Mult(XPow(n), v) == Shift(Up, v, n)
    ensures Mult(v, XPow(n)) == Shift(Up, v, n)
  {
    hide Act;
    hide Shift;
    MultShift(v, ONE, Up, n);
    MultOne(v);
    MultCommutes(v, XPow(n));
  }

  lemma XPowAdd(m: nat, n: nat)
    ensures Mult(XPow(m), XPow(n)) == XPow(m + n)
  {
    hide Act;
    hide Shift;
    hide Mult;
    MultXPow(XPow(m), n);
    MultCommutes(XPow(m), XPow(n));
    ShiftShift(Up, ONE, m, n);
  }

  lemma XPowNonzero(n: nat)
    ensures XPow(n) != 0
  {
    ShiftCancels(Down, Up, ONE, n);
    ShiftZero(Down, n);
  }

  lemma {:induction false} ShiftZero(d: Dir, n: nat)
    ensures Shift(d, 0, n) == 0
  {
    hide Step;
    if n > 0 { ShiftZero(d, n - 1); StepZero(d); }
  }
}
