/** Combining CRC32C values: the power of x for a length (`CRC32CombineGen`), with its two folds
 *  modulo 2^31 - 1 and its product over base-64 digits, and the combination itself.
 */
module CrcCombine {
  import opened Common
  import opened Gf2Register
  import opened PowerTables
  import opened Crc32cTable
  import opened CrcMultiply

  const TWO_31: nat := 0x8000_0000

  // ----- the order of x -----

  lemma MersenneEntry()
    ensures TABLE[272] == XPow(1)
    ensures RowStep(4) * 16 == TWO_31
  {
    assert TABLE[272] == L34[0];
    assert XPow(1) == 0x40000000;
  }

  // x^(2^31) = x: the table itself holds this equality, at row 4, digit 16.
  lemma XPowTwo31()
    ensures XPow(TWO_31) == XPow(1)
  {
    MersenneEntry();
    TableIsPowerTable();
    hide XPow;
    hide RowStep;
    assert TABLE[272] == XPow(RowStep(272 / 64) * (272 % 64));
  }

  // x^(2^31 - 1) = 1, so exponents matter only modulo 2^31 - 1.
  lemma XPowOrder()
    ensures XPow(TWO_31 - 1) == ONE
  {
    XPowTwo31();
    hide MulX;
    DivXMulX(XPow(TWO_31 - 1));
    DivXMulX(ONE);
    assert XPow(TWO_31) == MulX(XPow(TWO_31 - 1));
    assert XPow(1) == MulX(XPow(0));
  }

  lemma {:induction false} XPowPeriod(e: nat, k: nat)
    ensures XPow(e + k * (TWO_31 - 1)) == XPow(e)
  {
    XPowOrder();
    hide XPow;
    hide Mult;
    if k > 0 {
      XPowPeriod(e, k - 1);
      var f := e + (k - 1) * (TWO_31 - 1);
      XPowAdd(f, TWO_31 - 1);
      MultOne(XPow(f));
      assert f + (TWO_31 - 1) == e + k * (TWO_31 - 1);
    }
  }

  // One fold: the low 31 bits plus the rest.
  function Fold(len: nat): nat { len % TWO_31 + len / TWO_31 }

  lemma FoldPreserves(len: nat)
    ensures XPow(8 * Fold(len)) == XPow(8 * len)
  {
    hide XPow;
    var q := len / TWO_31;
    assert 8 * Fold(len) + (8 * q) * (TWO_31 - 1) == 8 * len;
    XPowPeriod(8 * Fold(len), 8 * q);
  }

  lemma FoldBounds(len: nat)
    requires len < TWO_64
    ensures Fold(Fold(len)) < TWO_31 + 3
    ensures len > 0 ==> Fold(len) > 0
  {
    assert Fold(len) <= 5 * TWO_31 - 2;
  }

  // ----- the product over base-64 digits -----

  // x^(8 * 64^i * l): what the digits of l, read from row i on, contribute.
  function Tail(l: nat, i: nat): bv32 { XPow(RowStep(i) * l) }

  // The bound the folded length keeps while it is shifted down to row i.
  ghost predicate Small(l: nat, i: nat) { l * Pow64(i) < TWO_31 + 3 }

  lemma {:induction false} Pow64Grows(i: nat)
    requires i > 5
    ensures Pow64(i) >= 0x10_0000_0000
  {
    if i == 6 {
      assert Pow64(4) == 0x100_0000;
    } else {
      Pow64Grows(i - 1);
    }
  }

  lemma SmallMeansZero(l: nat, i: nat)
    requires i > 5 && Small(l, i)
    ensures l == 0
  {
    Pow64Grows(i);
    assert l > 0 ==> l * Pow64(i) >= Pow64(i);
  }

  // A digit still to be read lies in the populated part of the table and is the power it stands for.
  lemma DigitInTable(table: seq<bv32>, l: nat, i: nat)
    requires IsPowerTable(table) && 0 < l && Small(l, i)
    ensures 64 * i + l % 64 < |table|
    ensures table[64 * i + l % 64] == Tail(l % 64, i)
  {
    hide XPow;
    if i == 5 {
      assert Pow64(3) == 0x4_0000;
      assert Pow64(5) == 0x4000_0000;
      assert l < 4;
    } else if i > 5 {
      SmallMeansZero(l, i);
      assert false;
    }
    hide RowStep;
    var j := 64 * i + l % 64;
    assert j / 64 == i && j % 64 == l % 64;
  }

  lemma SplitDigit(l: nat, i: nat)
    ensures RowStep(i) * l == RowStep(i) * (l % 64) + RowStep(i + 1) * (l / 64)
    ensures (l / 64) * Pow64(i + 1) <= l * Pow64(i)
  {
    assert l == l % 64 + 64 * (l / 64);
    assert RowStep(i + 1) == 64 * RowStep(i);
    assert RowStep(i) * l == RowStep(i) * (l % 64) + RowStep(i) * (64 * (l / 64));
    assert (l / 64) * Pow64(i + 1) == (64 * (l / 64)) * Pow64(i);
  }

  // Reading off the lowest digit.
  lemma TailSplit(l: nat, i: nat)
    ensures Small(l, i) ==> Small(l / 64, i + 1)
    ensures Tail(l, i) == Mult(Tail(l % 64, i), Tail(l / 64, i + 1))
    ensures l % 64 == 0 ==> Tail(l, i) == Tail(l / 64, i + 1)
  {
    SplitDigit(l, i);
    hide XPow;
    hide Mult;
    hide RowStep;
    hide Pow64;
    XPowAdd(RowStep(i) * (l % 64), RowStep(i + 1) * (l / 64));
  }

  lemma TailNonzero(l: nat, i: nat)
    ensures Tail(l, i) != 0
  {
    hide XPow;
    hide RowStep;
    XPowNonzero(RowStep(i) * l);
  }

  lemma TailOfZero(p: bv32, i: nat)
    ensures Mult(p, Tail(0, i)) == p
  {
    hide Mult;
    MultOne(p);
  }

  // The folds keep the power and leave a small length.
  lemma FoldFacts(len: nat)
    requires len < TWO_64
    ensures Tail(len, 0) == XPow(8 * len)
    ensures Tail(0, 0) == ONE
    ensures len < TWO_31 ==> Small(len, 0)
    ensures var f := len % TWO_31 + len / TWO_31;
            var g := f % TWO_31 + f / TWO_31;
            && Tail(f, 0) == Tail(len, 0) && (f < TWO_31 ==> Small(f, 0))
            && Tail(g, 0) == Tail(len, 0) && Small(g, 0)
  {
    FoldPreserves(len);
    FoldPreserves(Fold(len));
    FoldBounds(len);
    assert RowStep(0) == 8 && Pow64(0) == 1;
    assert XPow(0) == ONE;
    hide XPow;
    hide RowStep;
  }

  /** x^(8 * len), for every 64-bit length.  All reads of the table are in its populated part. */
  method CombineGen(len: nat, table: seq<bv32>) returns (p: bv32)
    requires len < TWO_64 && IsPowerTable(table)
    ensures p == XPow(8 * len)
  {
    hide Tail;
    hide Small;
    hide Mult;
    hide XPow;
    hide IsPowerTable;
    var l := len;
    FoldFacts(len);
    if TWO_31 <= l {
      l := l % TWO_31 + l / TWO_31;
      if TWO_31 <= l {
        l := l % TWO_31 + l / TWO_31;
      }
    }
    if l == 0 {
      p := ONE;
      return;
    }
    var i := 0;
    while l % 64 == 0
      invariant 0 < l && 0 <= i && Small(l, i) && Tail(l, i) == Tail(len, 0)
      decreases l
    {
      TailSplit(l, i);
      l, i := l / 64, i + 1;
    }
    DigitInTable(table, l, i);
    TailSplit(l, i);
    p := table[i * 64 + l % 64];
    l, i := l / 64, i + 1;
    while l != 0
      invariant 0 <= l && 0 <= i && Small(l, i) && Mult(p, Tail(l, i)) == Tail(len, 0)
      decreases l
    {
      TailSplit(l, i);
      if l % 64 != 0 {
        DigitInTable(table, l, i);
        var t := table[i * 64 + l % 64];
        TailNonzero(l % 64, i);
        MultAssoc(p, t, Tail(l / 64, i + 1));
        MultCommutes(p, t);
        p := Crc32Mult(t, p);
      }
      l, i := l / 64, i + 1;
    }
    TailOfZero(p, i);
  }
}
