/** The bit loop `crc32Mult`: multiplication of two registers, one coefficient of the first at a time. */
module CrcMultiply {
  import opened Gf2Register
  import opened Gf2Polynomial

  // ----- testing the bits of a with a moving mask -----

  function Half(a: bv32): bv32 { a >> 1 }

  // 1 << 31, halved i times.
  function Mask(i: nat): bv32 {
    if i == 0 then 0x80000000 else Half(Mask(i - 1))
  }

  function Decrement(m: bv32): bv32 { m - 1 }

  predicate Meets(a: bv32, m: bv32) { a & m != 0 }

  predicate Even(m: bv32) { m & 1 == 0 }

  lemma DoubleMeets(a: bv32, m: bv32)
    requires Even(m)
    ensures Meets(Double(a), m) <==> Meets(a, Half(m))
  {
  }

  lemma TopMeets(a: bv32)
    ensures Meets(a, 0x80000000) <==> Top(a)
  {
  }

  lemma DecrementDouble(x: bv32)
    ensures Decrement(Double(x)) == Widen(Decrement(x))
  {
  }

  lemma DoubleHalf(m: bv32)
    requires Even(m)
    ensures Double(Half(m)) == m
  {
  }

  lemma LowZeroEven(a: bv32, k: nat)
    requires LowZero(a, k) && k > 0
    ensures Even(a)
  {
    MaskEven(a, LowMask(k - 1));
  }

  function Monomial(i: nat): (p: seq<bool>)
    ensures |p| == i + 1
  {
    if i == 0 then [true] else [false] + Monomial(i - 1)
  }

  lemma {:induction false} MonomialValue(i: nat)
    ensures Act(Up, Monomial(i), ONE) == XPow(i)
  {
    hide Add;
    hide Step;
    if i == 0 {
      ActUnit();
    } else {
      MonomialValue(i - 1);
      assert Monomial(i)[1..] == Monomial(i - 1);
      AddZero(XPow(i));
    }
  }

  lemma {:induction false} MaskIsXPow(i: nat)
    requires i <= 31
    ensures Mask(i) == XPow(i)
    ensures LowZero(Mask(i), 31 - i)
  {
    hide MulX;
    hide Half;
    hide LowZero;
    MonomialValue(i);
    BitsOfValueN(Monomial(i), 31 - i);
    hide Act;
    if i > 0 {
      MaskIsXPow(i - 1);
      LowZeroEven(Mask(i - 1), 32 - i);
      MulXOfEven(Mask(i - 1));
    }
  }

  lemma MulXOfEven(m: bv32)
    requires Even(m)
    ensures MulX(m) == Half(m)
  {
  }

  lemma {:induction false} DecrementMask(i: nat)
    requires i <= 31
    ensures Decrement(Mask(i)) == LowMask(31 - i)
    decreases 31 - i
  {
    hide Half;
    hide Widen;
    hide Decrement;
    if i == 31 {
      MaskIsXPow(31);
      X32();
      hide Mask;
      assert Decrement(1) == 0 by { DecrementOne(); }
    } else {
      DecrementMask(i + 1);
      MaskIsXPow(i);
      LowZeroEven(Mask(i), 31 - i);
      DoubleHalf(Mask(i));
      DecrementDouble(Mask(i + 1));
    }
  }

  lemma DecrementOne()
    ensures Decrement(1) == 0
  {
  }

  // The mask at position i picks coefficient i.
  lemma {:induction false} MaskPicks(a: bv32, n: nat, i: nat)
    requires i < n <= 32
    ensures Meets(a, Mask(i)) <==> TopBits(a, n)[i]
    decreases i
  {
    hide Meets;
    hide Half;
    hide Double;
    hide Top;
    hide LowZero;
    if i == 0 {
      TopMeets(a);
    } else {
      MaskPicks(Double(a), n - 1, i - 1);
      MaskIsXPow(i - 1);
      LowZeroEven(Mask(i - 1), 32 - i);
      DoubleMeets(a, Mask(i - 1));
    }
  }

  lemma {:induction false} LowZeroVanishes(a: bv32, k: nat, n: nat, j: nat)
    requires LowZero(a, k) && k <= 32
    requires j < n <= 32 && j + k >= 32
    ensures !TopBits(a, n)[j]
    decreases j
  {
    hide LowZero;
    hide Double;
    hide Top;
    if j == 0 {
      LowZeroFull(a);
      TopOfOne();
    } else if k == 32 {
      LowZeroFull(a);
      TopOfOne();
      LowZeroVanishes(0, 32, n - 1, j - 1);
    } else {
      LowZeroDouble(a, k);
      LowZeroVanishes(Double(a), k + 1, n - 1, j - 1);
    }
  }

  lemma VanishingIsLowZero(a: bv32, n: nat)
    requires n <= 32 && forall j: nat | n <= j < 32 :: !TopBits(a, 32)[j]
    ensures LowZero(a, 32 - n)
  {
    var bits := TopBits(a, 32);
    BitsOfValueN(bits[..n], 32 - n);
    TopBitsValue(a);
    CoefNone(bits, n);
    assert bits == bits[..n] + bits[n..];
    hide *;
    ActConcat(Up, bits[..n], bits[n..], ONE);
    ActZeros(Up, bits[n..], ONE);
    ShiftZero(Up, n);
    AddZero(Act(Up, bits[..n], ONE));
  }

  lemma BelowMask(a: bv32, i: nat)
    requires i < 32
    ensures Meets(a, Decrement(Mask(i))) <==> !LowZero(a, 31 - i)
  {
    hide Mask;
    hide Decrement;
    DecrementMask(i);
    hide LowMask;
  }

  // The bits below the mask at position i are the coefficients after i.
  lemma RestOfBits(a: bv32, bits: seq<bool>, i: nat, m: bv32)
    requires i < 32 && m == Mask(i) && bits == TopBits(a, 32)
    ensures !Meets(a, Decrement(m)) <==> forall j: nat | i < j < 32 :: !bits[j]
  {
    hide *;
    BelowMask(a, i);
    if LowZero(a, 31 - i) {
      forall j: nat | i < j < 32 ensures !bits[j] { LowZeroVanishes(a, 31 - i, 32, j); }
    } else {
      if forall j: nat | i < j < 32 :: !bits[j] {
        VanishingIsLowZero(a, i + 1);
      }
    }
  }

  // The loop runs out of bits only if a is zero.
  lemma NonzeroHasBit(a: bv32)
    requires a != 0
    ensures exists j: nat | j < 32 :: TopBits(a, 32)[j]
  {
    hide TopBits;
    hide Act;
    TopBitsValue(a);
    if forall j: nat | j < 32 :: !TopBits(a, 32)[j] {
      ActZeros(Up, TopBits(a, 32), ONE);
    }
  }

  lemma ActHead(p: seq<bool>, v: bv32)
    requires p != []
    ensures Act(Up, p, v) == Add(if p[0] then v else 0, Act(Up, p[1..], MulX(v)))
  {
    hide Add;
    hide MulX;
    ActStep(Up, Up, p[1..], v);
  }

  /** The bit loop: add b * x^i for every coefficient i of a, stopping after the last one.
   *  It does not end for a = 0, so callers must pass a nonzero first factor.
   */
  method Crc32Mult(a: bv32, b: bv32) returns (p: bv32)
    requires a != 0
    ensures p == Mult(a, b)
  {
    hide *;
    var m: bv32 := 0x80000000;
    var c := b;
    p := 0;
    ghost var bits, i := TopBits(a, 32), 0;
    assert bits[0..] == bits;
    StartOfLoop(a, b);
    NonzeroHasBit(a);
    while true
      invariant 0 <= i < 32 && |bits| == 32 && bits == TopBits(a, 32) && m == Mask(i)
      invariant Add(p, Act(Up, bits[i..], c)) == Mult(a, b)
      invariant exists j: nat | i <= j < 32 :: bits[j]
      decreases 32 - i
    {
      MaskPicks(a, 32, i);
      RestOfBits(a, bits, i, m);
      ActHead(bits[i..], c);
      assert bits[i..][1..] == bits[i + 1..];
      ghost var rest := Act(Up, bits[i + 1..], MulX(c));
      if Meets(a, m) {
        AddAssoc(p, c, rest);
        p := Add(p, c);
        if !Meets(a, Decrement(m)) {
          ActZeros(Up, bits[i + 1..], MulX(c)) by { CoefNone(bits, i + 1); }
          AddZero(p);
          break;
        }
      } else {
        AddZero(rest);
      }
      NextMask(i);
      m := Half(m);
      c := MulX(c);
      i := i + 1;
    }
  }

  lemma StartOfLoop(a: bv32, b: bv32)
    ensures Mask(0) == 0x80000000
    ensures Add(0, Act(Up, TopBits(a, 32), b)) == Mult(a, b)
  {
    AddZero(Mult(a, b));
    hide Act;
    hide Add;
    hide TopBits;
  }

  lemma NextMask(i: nat)
    ensures Mask(i + 1) == Half(Mask(i))
  {
    hide Half;
  }

  lemma CoefNone(bits: seq<bool>, n: nat)
    requires n <= |bits| && forall j: nat | n <= j < |bits| :: !bits[j]
    ensures forall i: nat :: !Coef(bits[n..], i)
  {
  }
}
