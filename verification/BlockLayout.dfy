/** The layout of a 2 MB chunk (a chunk header, then equal blocks, each behind a block header), the ten
 *  block sizes, and the bit trick that picks one.  Addresses are numbers; 0 is the null pointer.
 */
module BlockLayout {
  import opened Common

  type Addr = nat

  const CHUNK_SIZE: nat := 0x20_0000
  const CHUNK_HEADER_SIZE: nat := 48
  const BLOCK_HEADER_SIZE: nat := 16
  const CLASSES: nat := 10

  function Pow2(n: nat): (p: nat)
    ensures p > 0
  {
    if n == 0 then 1 else 2 * Pow2(n - 1)
  }

  function BlockSize(i: nat): nat { 1024 * Pow2(i) }

  function Stride(i: nat): (n: nat)
    ensures n > BLOCK_HEADER_SIZE
  {
    BlockSize(i) + BLOCK_HEADER_SIZE
  }

  function BlocksPer(i: nat): nat { Quotient(CHUNK_SIZE - CHUNK_HEADER_SIZE, Stride(i)) }

  // The header of block k of a chunk carved for class i; the payload follows it.
  function BlockAt(c: Addr, i: nat, k: nat): (b: Addr)
    ensures b > 0
  {
    c + CHUNK_HEADER_SIZE + k * Stride(i)
  }

  function Payload(b: Addr): Addr { b + BLOCK_HEADER_SIZE }

  // Where the payload of a block ends.
  function BlockEnd(b: Addr, i: nat): Addr { Payload(b) + BlockSize(i) }

  ghost function Blocks(c: Addr, i: nat): set<Addr> {
    set k | 0 <= k < BlocksPer(i) :: BlockAt(c, i, k)
  }

  // ----- the ten sizes -----

  lemma ClassSizes(i: nat)
    requires i < CLASSES
    ensures BlockSize(i) <= 0x8_0000
    ensures BlocksPer(i) >= 3
  {
    Pow2Monotone(i, 9);
    assert Pow2(9) == 512;
    var s := Stride(i);
    assert 3 * s <= CHUNK_SIZE - CHUNK_HEADER_SIZE;
    hide Stride;
    QuotientFacts(CHUNK_SIZE - CHUNK_HEADER_SIZE, s, 3);
  }

  lemma {:induction false} Pow2Monotone(m: nat, n: nat)
    requires m <= n
    ensures Pow2(m) <= Pow2(n)
    decreases n - m
  {
    if m < n { Pow2Monotone(m + 1, n); }
  }

  // ----- blocks do not overlap -----

  /** Two blocks of a chunk: header and payload of the earlier one end where the later one's header
   *  starts or before; all of them lie between the chunk header and the end of the chunk. */
  lemma BlocksApart(c: Addr, i: nat, j: nat, k: nat)
    requires j < k < BlocksPer(i)
    ensures BlockEnd(BlockAt(c, i, j), i) <= BlockAt(c, i, k)
    ensures BlockEnd(BlockAt(c, i, k), i) <= c + CHUNK_SIZE
  {
    var s := Stride(i);
    assert j * s + s == (j + 1) * s <= k * s;
    BlockInside(c, i, k);
  }

  lemma BlockInside(c: Addr, i: nat, k: nat)
    requires k < BlocksPer(i)
    ensures c + CHUNK_HEADER_SIZE <= BlockAt(c, i, k)
    ensures BlockEnd(BlockAt(c, i, k), i) <= c + CHUNK_SIZE
  {
    QuotientFacts(CHUNK_SIZE - CHUNK_HEADER_SIZE, Stride(i), k + 1);
    assert (k + 1) * Stride(i) == k * Stride(i) + Stride(i);
  }

  /** No further block would fit. */
  lemma BlocksFill(c: Addr, i: nat)
    ensures BlockEnd(BlockAt(c, i, BlocksPer(i)), i) > c + CHUNK_SIZE
  {
    var n := BlocksPer(i);
    QuotientFacts(CHUNK_SIZE - CHUNK_HEADER_SIZE, Stride(i), n + 1);
    assert (n + 1) * Stride(i) == n * Stride(i) + Stride(i);
  }

  lemma BlocksInside(c: Addr, i: nat, b: Addr)
    requires b in Blocks(c, i)
    ensures c + CHUNK_HEADER_SIZE <= b && BlockEnd(b, i) <= c + CHUNK_SIZE
  {
    var k :| 0 <= k < BlocksPer(i) && b == BlockAt(c, i, k);
    BlockInside(c, i, k);
  }

  // Chunks sit at least a chunk apart, so blocks of different chunks differ.
  predicate Apart(c: Addr, d: Addr) { c + CHUNK_SIZE <= d || d + CHUNK_SIZE <= c }

  lemma BlocksDisjoint(c: Addr, i: nat, d: Addr, j: nat)
    requires Apart(c, d)
    ensures Blocks(c, i) !! Blocks(d, j)
  {
    forall b | b in Blocks(c, i) && b in Blocks(d, j) ensures false {
      BlocksInside(c, i, b);
      BlocksInside(d, j, b);
    }
  }

  /** Header and payload of two different blocks do not overlap, whether they are in one chunk or in two. */
  lemma BlocksMiss(c: Addr, i: nat, a: Addr, d: Addr, j: nat, b: Addr)
    requires a in Blocks(c, i) && b in Blocks(d, j) && a != b && (Apart(c, d) || (c == d && i == j))
    ensures BlockEnd(a, i) <= b || BlockEnd(b, j) <= a
  {
    BlocksInside(c, i, a);
    BlocksInside(d, j, b);
    if c == d && i == j {
      var m :| 0 <= m < BlocksPer(i) && a == BlockAt(c, i, m);
      var n :| 0 <= n < BlocksPer(i) && b == BlockAt(c, i, n);
      if m < n { BlocksApart(c, i, m, n); } else { BlocksApart(c, i, n, m); }
    }
  }

  ghost function FirstBlocks(c: Addr, i: nat, n: nat): set<Addr> {
    set k | 0 <= k < n :: BlockAt(c, i, k)
  }

  lemma {:induction false} CountFirstBlocks(c: Addr, i: nat, n: nat)
    requires n <= BlocksPer(i)
    ensures |FirstBlocks(c, i, n)| == n
  {
    if n > 0 {
      CountFirstBlocks(c, i, n - 1);
      forall k | 0 <= k < n - 1 ensures BlockAt(c, i, k) != BlockAt(c, i, n - 1) {
        BlocksApart(c, i, k, n - 1);
      }
      assert FirstBlocks(c, i, n) == FirstBlocks(c, i, n - 1) + {BlockAt(c, i, n - 1)};
    }
  }

  lemma CountBlocks(c: Addr, i: nat)
    ensures |Blocks(c, i)| == BlocksPer(i)
  {
    CountFirstBlocks(c, i, BlocksPer(i));
    assert Blocks(c, i) == FirstBlocks(c, i, BlocksPer(i));
  }

  // ----- choosing a class -----

  // Bitwise and, on numbers.
  function And(x: nat, y: nat): nat {
    if x == 0 then 0 else (if x % 2 == 1 && y % 2 == 1 then 1 else 0) + 2 * And(x / 2, y / 2)
  }

  function Popcount(x: nat): nat {
    if x == 0 then 0 else x % 2 + Popcount(x / 2)
  }

  // The number of zeros above the highest one of a nonzero 32-bit word.
  function Clz(x: nat): (n: nat)
    requires 0 < x < 0x1_0000_0000
    ensures n < 32
    ensures Pow2(31 - n) <= x < Pow2(32 - n)
    decreases 0x1_0000_0000 - x
  {
    if x >= 0x8000_0000 then Pow2At31(); 0 else var m := Clz(2 * x); ClzStep(x, m); m + 1
  }

  lemma Pow2At31()
    ensures Pow2(31) == 0x8000_0000 && Pow2(32) == 0x1_0000_0000
  {
    assert Pow2(8) == 256;
    assert Pow2(16) == 65536;
    assert Pow2(24) == 0x100_0000;
  }

  lemma ClzStep(x: nat, m: nat)
    requires 0 < x < 0x8000_0000 && m < 32 && Pow2(31 - m) <= 2 * x < Pow2(32 - m)
    ensures m < 31
    ensures Pow2(30 - m) <= x < Pow2(31 - m)
  {
  }

  lemma {:induction false} AndSelf(x: nat)
    ensures And(x, x) == x
  {
    if x > 0 { AndSelf(x / 2); }
  }

  ghost predicate IsPow2(x: nat) { exists n: nat :: x == Pow2(n) }

  // x & (x - 1) is zero exactly for the powers of two.
  lemma {:induction false} ClearLowestBit(x: nat)
    requires x > 0
    ensures And(x, x - 1) == 0 <==> IsPow2(x)
  {
    if x == 1 {
      assert x == Pow2(0);
    } else if x % 2 == 1 {
      assert (x - 1) / 2 == x / 2;
      AndSelf(x / 2);
      forall n: nat ensures x != Pow2(n) { }
    } else {
      assert (x - 1) / 2 == x / 2 - 1;
      ClearLowestBit(x / 2);
      if IsPow2(x / 2) {
        var n: nat :| x / 2 == Pow2(n);
        assert x == Pow2(n + 1);
      }
      if IsPow2(x) {
        var n: nat :| x == Pow2(n);
        assert x / 2 == Pow2(n - 1);
      }
    }
  }

  lemma {:induction false} PopcountBelowPow2(n: nat)
    ensures Popcount(Pow2(n) - 1) == n
  {
    if n > 0 {
      assert (Pow2(n) - 1) / 2 == Pow2(n - 1) - 1;
      PopcountBelowPow2(n - 1);
    }
  }

  // Shift right.
  function Shr(x: nat, n: nat): nat {
    if n == 0 then x else Shr(x / 2, n - 1)
  }

  lemma {:induction false} ShrPow2(m: nat, n: nat)
    requires n <= m
    ensures Shr(Pow2(m), n) == Pow2(m - n)
    decreases n
  {
    if n > 0 {
      assert Pow2(m) / 2 == Pow2(m - 1);
      ShrPow2(m - 1, n - 1);
    }
  }

  lemma ClzPositive(x: nat)
    requires 0 < x < 0x8000_0000
    ensures Clz(x) > 0
  {
    Pow2At31();
  }

  // The least power of two that is not below x.
  function RoundUp(x: nat): (y: nat)
    requires 0 < x < 0x8000_0000
  {
    ClzPositive(x);
    if And(x, x - 1) != 0 then Shr(0x8000_0000, Clz(x) - 1) else x
  }

  lemma Pow2Strict(m: nat, n: nat)
    ensures Pow2(m) < Pow2(n) ==> m < n
  {
    if n <= m { Pow2Monotone(n, m); }
  }

  // Between two powers of two there is no other.
  lemma NotPow2(x: nat, n: nat)
    requires Pow2(n) < x < Pow2(n + 1)
    ensures !IsPow2(x)
  {
    if IsPow2(x) {
      var m: nat :| x == Pow2(m);
      Pow2Strict(n, m);
      Pow2Strict(m, n + 1);
    }
  }

  lemma RoundUpIsLeast(x: nat) returns (n: nat)
    requires 0 < x < 0x8000_0000
    ensures RoundUp(x) == Pow2(n)
    ensures x <= Pow2(n) && (n > 0 ==> Pow2(n - 1) < x)
  {
    hide And;
    hide Clz;
    hide Shr;
    ClearLowestBit(x);
    ClzPositive(x);
    var z := Clz(x);
    n := 31 - z;
    if x == Pow2(n) {
      assert IsPow2(x);
    } else {
      NotPow2(x, n);
      Pow2At31();
      ShrPow2(31, z - 1);
      n := n + 1;
    }
  }

  function BlockIndex(size: nat): nat
    requires 0 < size <= 0x8_0000
  {
    var y := RoundUp((size + 1023) / 1024);
    Popcount(if y > 0 then y - 1 else 0)
  }

  lemma FitsByLog(size: nat, x: nat, n: nat)
    requires 0 < size <= 0x8_0000 && 1024 * (x - 1) < size <= 1024 * x
    requires x <= Pow2(n) && (n > 0 ==> Pow2(n - 1) < x)
    ensures n < CLASSES && size <= BlockSize(n)
    ensures forall i :: 0 <= i < n ==> BlockSize(i) < size
  {
    assert Pow2(9) == 512;
    hide Pow2;
    if n > 9 { Pow2Monotone(9, n - 1); }
    forall i | 0 <= i < n ensures BlockSize(i) < size { Pow2Monotone(i, n - 1); }
  }

  /** The bit trick picks the smallest block size that fits. */
  lemma BlockIndexIsBestFit(size: nat)
    requires 0 < size <= 0x8_0000
    ensures BlockIndex(size) < CLASSES
    ensures size <= BlockSize(BlockIndex(size))
    ensures forall i :: 0 <= i < BlockIndex(size) ==> BlockSize(i) < size
  {
    hide RoundUp;
    hide Popcount;
    hide BlockSize;
    hide Pow2;
    var x := (size + 1023) / 1024;
    var n := RoundUpIsLeast(x);
    PopcountBelowPow2(n);
    FitsByLog(size, x, n);
  }
}
