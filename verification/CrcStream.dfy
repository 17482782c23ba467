/** The checksum of a byte string, and what combining checksums of pieces gives. */
module CrcStream {
  import opened Common
  import opened Gf2Register
  import opened Gf2Polynomial
  import opened PowerTables
  import opened CrcMultiply
  import opened CrcCombine
  import opened Crc32cTable

  // ----- the instructions, bit by bit -----

  // The bits of a byte in the order the instruction consumes them, least significant first.
  function ByteBits(b: bv8): (p: seq<bool>)
    ensures |p| == 8
  {
    [b & 1 != 0, b & 2 != 0, b & 4 != 0, b & 8 != 0, b & 16 != 0, b & 32 != 0, b & 64 != 0, b & 128 != 0]
  }

  function DataBits(data: seq<bv8>): (p: seq<bool>)
    ensures |p| == 8 * |data|
  {
    if data == [] then [] else ByteBits(data[0]) + DataBits(data[1..])
  }

  // One message bit enters at the register's low end, then the register is multiplied by x.
  function CrcBit(c: bv32, bit: bool): bv32 { MulX(Add(c, if bit then 1 else 0)) }

  function CrcBits(c: bv32, bits: seq<bool>): bv32
    decreases bits
  {
    if bits == [] then c else CrcBits(CrcBit(c, bits[0]), bits[1..])
  }

  // crc32b: one byte.
  function Crc32b(c: bv32, b: bv8): bv32 { CrcBits(c, ByteBits(b)) }

  // crc32q: a little-endian 64-bit word, given as its eight bytes in memory order.
  function Crc32q(c: bv32, w: seq<bv8>): bv32
    requires |w| == 8
  {
    CrcBits(c, DataBits(w))
  }

  // The checksum of a byte string from an initial register.
  function Crc(init: bv32, data: seq<bv8>): bv32 { CrcBits(init, DataBits(data)) }

  lemma {:induction false} CrcBitsConcat(c: bv32, p: seq<bool>, q: seq<bool>)
    ensures CrcBits(c, p + q) == CrcBits(CrcBits(c, p), q)
    decreases p
  {
    hide CrcBit;
    if p == [] {
      assert p + q == q;
    } else {
      assert (p + q)[1..] == p[1..] + q;
      CrcBitsConcat(CrcBit(c, p[0]), p[1..], q);
    }
  }

  lemma {:induction false} DataBitsConcat(a: seq<bv8>, b: seq<bv8>)
    ensures DataBits(a + b) == DataBits(a) + DataBits(b)
  {
    hide ByteBits;
    if a == [] {
      assert a + b == b;
    } else {
      assert (a + b)[1..] == a[1..] + b;
      DataBitsConcat(a[1..], b);
    }
  }

  // Checksums compose over any split point.
  lemma CrcConcat(init: bv32, a: seq<bv8>, b: seq<bv8>)
    ensures Crc(init, a + b) == Crc(Crc(init, a), b)
  {
    hide CrcBits;
    hide DataBits;
    DataBitsConcat(a, b);
    CrcBitsConcat(init, DataBits(a), DataBits(b));
  }

  /** Eight bytes at a time, then the tail byte by byte. */
  method ComputeCrc32(init: bv32, buf: seq<bv8>) returns (crc: bv32)
    ensures crc == Crc(init, buf) && IsChecksum(init, buf, crc)
  {
    hide IsChecksum;
    hide Crc;
    hide CrcBits;
    hide DataBits;
    hide ByteBits;
    crc := init;
    var p, end := 0, |buf| / 8;
    CrcEmpty(init);
    assert buf[..0] == [];
    while p < end
      invariant 0 <= p <= end
      invariant crc == Crc(init, buf[..8 * p])
    {
      var w := buf[8 * p..8 * p + 8];
      assert buf[..8 * (p + 1)] == buf[..8 * p] + w;
      CrcConcat(init, buf[..8 * p], w);
      CrcWord(crc, w);
      crc := Crc32q(crc, w);
      p := p + 1;
    }
    var k := 8 * p;
    while k < |buf|
      invariant 0 <= k <= |buf|
      invariant crc == Crc(init, buf[..k])
    {
      assert buf[..k + 1] == buf[..k] + [buf[k]];
      CrcConcat(init, buf[..k], [buf[k]]);
      CrcByte(crc, buf[k]);
      crc := Crc32b(crc, buf[k]);
      k := k + 1;
    }
    assert buf[..k] == buf;
    ChecksumIff(init, buf, crc);
  }

  lemma CrcEmpty(c: bv32)
    ensures Crc(c, []) == c
  {
  }

  lemma CrcWord(c: bv32, w: seq<bv8>)
    requires |w| == 8
    ensures Crc32q(c, w) == Crc(c, w)
  {
    hide CrcBits;
    hide DataBits;
  }

  lemma CrcByte(c: bv32, b: bv8)
    ensures Crc32b(c, b) == Crc(c, [b])
  {
    hide CrcBits;
    hide ByteBits;
    assert DataBits([b]) == ByteBits(b) + DataBits([]);
    assert DataBits([b]) == ByteBits(b);
  }

  // ----- the checksum as a remainder -----

  // The contribution of the initial register separates from that of the data.
  lemma {:induction false} CrcBitsAdd(c: bv32, d: bv32, bits: seq<bool>)
    ensures CrcBits(Add(c, d), bits) == Add(Shift(Up, c, |bits|), CrcBits(d, bits))
    decreases bits
  {
    hide Add;
    hide MulX;
    if bits != [] {
      var u := if bits[0] then 1 else 0;
      AddAssoc(c, d, u);
      MulXAdd(c, Add(d, u));
      CrcBitsAdd(MulX(c), CrcBit(d, bits[0]), bits[1..]);
      ShiftShift(Up, c, 1, |bits| - 1);
      assert Shift(Up, c, 1) == MulX(c);
    }
  }

  lemma CrcSplitsInit(init: bv32, data: seq<bv8>)
    ensures Crc(init, data) == Add(Shift(Up, init, 8 * |data|), Crc(0, data))
  {
    hide Add;
    hide CrcBits;
    hide Shift;
    AddZero(init);
    CrcBitsAdd(init, 0, DataBits(data));
  }

  function Reverse(p: seq<bool>): (r: seq<bool>)
    ensures |r| == |p|
  {
    if p == [] then [] else Reverse(p[1..]) + [p[0]]
  }

  // The message as a polynomial, first bit highest, times x^32.
  function Message(bits: seq<bool>): seq<bool> { Zeros(32) + Reverse(bits) }

  // A bit entering at x^31 and one multiplication by x make x^32.
  lemma FirstBit(b: bool)
    ensures CrcBit(0, b) == Shift(Up, if b then ONE else 0, 32)
  {
    ShiftZero(Up, 32);
    X32();
    hide Shift;
  }

  lemma OneCoefficient(b: bool)
    ensures Reduce([b]) == if b then ONE else 0
  {
    ActUnit();
    if !b {
      hide MulX;
      StepZero(Up);
      AddZero(0);
      assert Act(Up, [b], ONE) == Add(0, Step(Up, Act(Up, [b][1..], ONE)));
    }
  }

  lemma {:induction false} CrcBitsIsReduce(bits: seq<bool>)
    ensures CrcBits(0, bits) == Shift(Up, Reduce(Reverse(bits)), 32)
    decreases bits
  {
    hide CrcBit;
    hide Shift;
    hide Reduce;
    hide Add;
    if bits == [] {
      ShiftZero(Up, 32);
      EmptyReduces();
    } else {
      var n := |bits| - 1;
      var v := if bits[0] then ONE else 0;
      var r := Reverse(bits[1..]);
      FirstBit(bits[0]);
      CrcBitsIsReduce(bits[1..]);
      AddZero(Shift(Up, v, 32));
      CrcBitsAdd(Shift(Up, v, 32), 0, bits[1..]);
      ReduceConcat(r, [bits[0]]);
      OneCoefficient(bits[0]);
      ShiftAdd(Up, Reduce(r), Shift(Up, v, n), 32);
      ShiftShift(Up, v, n, 32);
      ShiftShift(Up, v, 32, n);
      AddCommutes(Shift(Up, v, n + 32), Shift(Up, Reduce(r), 32));
    }
  }

  lemma EmptyReduces()
    ensures Reduce([]) == 0
  {
  }

  lemma ReduceConcat(p: seq<bool>, q: seq<bool>)
    ensures Reduce(p + q) == Add(Reduce(p), Shift(Up, Reduce(q), |p|))
  {
    hide Act;
    hide Shift;
    hide Add;
    ActConcat(Up, p, q, ONE);
  }

  // The checksum from 0 is the remainder of message * x^32 on division by the generator.
  lemma CrcIsRemainder(bits: seq<bool>)
    ensures IsResidue(Message(bits), TopBits(CrcBits(0, bits), 32))
  {
    hide CrcBits;
    hide Shift;
    hide Reduce;
    hide Add;
    hide TopBits;
    var r := Reverse(bits);
    CrcBitsIsReduce(bits);
    ReduceConcat(Zeros(32), r);
    assert Reduce(Zeros(32)) == 0 by { ReduceDef(Zeros(32)); ActZeros(Up, Zeros(32), ONE); }
    AddZero(Shift(Up, Reduce(r), 32));
    ReduceIsRemainder(Message(bits), TopBits(CrcBits(0, bits), 32));
  }

  // Bit n of a buffer: bytes in memory order, the least significant bit of each first.
  function BufferBit(data: seq<bv8>, n: nat): bool
    requires n < 8 * |data|
  {
    (data[n / 8] >> n % 8) & 1 != 0
  }

  lemma ByteBitIs(b: bv8, k: nat)
    requires k < 8
    ensures ByteBits(b)[k] == ((b >> k) & 1 != 0)
  {
    if k == 0 { } else if k == 1 { } else if k == 2 { } else if k == 3 { }
    else if k == 4 { } else if k == 5 { } else if k == 6 { } else { }
  }

  lemma {:induction false} DataBitIs(data: seq<bv8>, n: nat)
    requires n < 8 * |data|
    ensures DataBits(data)[n] == BufferBit(data, n)
  {
    hide ByteBits;
    if n < 8 {
      ByteBitIs(data[0], n);
    } else {
      DataBitIs(data[1..], n - 8);
      assert (n - 8) / 8 == n / 8 - 1 && (n - 8) % 8 == n % 8;
    }
  }

  lemma {:induction false} ReverseAt(p: seq<bool>, k: nat)
    requires k < |p|
    ensures Reverse(p)[|p| - 1 - k] == p[k]
  {
    if k > 0 { ReverseAt(p[1..], k - 1); }
  }

  // The buffer as a polynomial, its first bit the highest coefficient, times x^32.
  ghost function BufferPolynomial(data: seq<bv8>): (p: seq<bool>)
    ensures |p| == 32 + 8 * |data|
  {
    var n := 32 + 8 * |data|;
    seq(n, i requires 0 <= i < n => i >= 32 && BufferBit(data, n - 1 - i))
  }

  lemma BufferIsMessage(data: seq<bv8>)
    ensures BufferPolynomial(data) == Message(DataBits(data))
  {
    hide BufferBit;
    hide DataBits;
    var p, m := BufferPolynomial(data), Message(DataBits(data));
    forall i | 0 <= i < |p| ensures p[i] == m[i] {
      if i >= 32 {
        ReverseAt(DataBits(data), |p| - 1 - i);
        DataBitIs(data, |p| - 1 - i);
      }
    }
  }

  /** c is the checksum of a buffer from an initial register exactly when, less the register advanced past the buffer, it is
   *  the remainder of the buffer times x^32 on division by the generator. */
  ghost predicate IsChecksum(init: bv32, data: seq<bv8>, c: bv32) {
    IsResidue(BufferPolynomial(data), TopBits(Add(c, Mult(XPow(8 * |data|), init)), 32))
  }

  lemma ChecksumIff(init: bv32, data: seq<bv8>, c: bv32)
    ensures c == Crc(init, data) <==> IsChecksum(init, data, c)
  {
    hide CrcBits;
    hide DataBits;
    hide BufferPolynomial;
    hide Message;
    hide Shift;
    hide Mult;
    hide XPow;
    hide Add;
    hide IsResidue;
    hide TopBits;
    BufferIsMessage(data);
    CrcIsRemainder(DataBits(data));
    CrcSplitsInit(init, data);
    MultXPow(init, 8 * |data|);
    var s, r := Shift(Up, init, 8 * |data|), Crc(0, data);
    ResidueOf(BufferPolynomial(data), r, Add(c, s));
    AddBack(s, r, c);
  }

  lemma ResidueOf(p: seq<bool>, r: bv32, d: bv32)
    requires IsResidue(p, TopBits(r, 32))
    ensures IsResidue(p, TopBits(d, 32)) <==> d == r
  {
    hide TopBits;
    hide IsResidue;
    hide Reduce;
    ReduceIsRemainder(p, TopBits(r, 32));
    ReduceIsRemainder(p, TopBits(d, 32));
    TopBitsValue(d);
    TopBitsValue(r);
  }

  lemma AddBack(s: bv32, r: bv32, c: bv32)
    ensures c == Add(s, r) <==> Add(c, s) == r
  {
    hide Add;
    AddCommutes(s, r);
    AddCommutes(s, Add(c, s));
    AddTwice(r, s);
    AddTwice(c, s);
  }

  lemma AddTwice(r: bv32, s: bv32)
    ensures Add(Add(r, s), s) == r
  {
    hide Add;
    AddAssoc(r, s, s);
    AddZero(s);
    AddZero(r);
  }

  // ----- combination -----

  // What the combination computes: the first checksum advanced past size2 bytes, plus the second.
  function Combined(crc1: bv32, crc2: bv32, size2: nat): bv32 { Add(Mult(XPow(8 * size2), crc1), crc2) }

  method CombineOp(crc1: bv32, crc2: bv32, op: bv32) returns (r: bv32)
    requires op != 0
    ensures r == Add(Mult(op, crc1), crc2)
  {
    var m := Crc32Mult(op, crc1);
    hide Add;
    hide Mult;
    r := Add(m, crc2);
  }

  method Combine(crc1: bv32, crc2: bv32, size2: nat) returns (r: bv32)
    requires size2 < TWO_64
    ensures r == Combined(crc1, crc2, size2)
  {
    hide Add;
    hide Mult;
    hide XPow;
    hide IsPowerTable;
    TableIsPowerTable();
    var op := CombineGen(size2, TABLE);
    XPowNonzero(8 * size2);
    r := CombineOp(crc1, crc2, op);
  }

  // Combining the checksum of a with that of b taken from 0 gives the checksum of a followed by b.
  lemma CombinedIsCrc(init: bv32, a: seq<bv8>, b: seq<bv8>)
    ensures Combined(Crc(init, a), Crc(0, b), |b|) == Crc(init, a + b)
  {
    hide Add;
    hide Mult;
    hide XPow;
    hide Crc;
    CrcConcat(init, a, b);
    CrcSplitsInit(Crc(init, a), b);
    MultXPow(Crc(init, a), 8 * |b|);
  }

  // Combination is associative, with sizes adding.
  lemma CombinedAssociates(a: bv32, b: bv32, c: bv32, m: nat, n: nat)
    ensures Combined(Combined(a, b, m), c, n) == Combined(a, Combined(b, c, n), m + n)
  {
    hide Add;
    hide Mult;
    hide XPow;
    var x, y := XPow(8 * m), XPow(8 * n);
    MultAdd(y, Mult(x, a), b);
    MultAssoc(y, x, a);
    XPowAdd(8 * n, 8 * m);
    AddAssoc(Mult(Mult(y, x), a), Mult(y, b), c);
  }

  lemma WrapShift()
    ensures XPow(8 * TWO_64) == XPow(32) && XPow(32) != ONE
  {
    X32();
    hide XPow;
    assert 8 * TWO_64 == 32 + (4 * TWO_31 + 4) * 8 * (TWO_31 - 1) by {
      assert TWO_31 == 0x8000_0000 && TWO_64 == 0x1_0000_0000_0000_0000;
    }
    XPowPeriod(32, (4 * TWO_31 + 4) * 8);
  }

  // With sizes added in 64 bits, combination stays associative exactly when the sum does not wrap.
  lemma CombinedAssociatesIff(m: nat, n: nat)
    requires m < TWO_64 && n < TWO_64
    ensures m + n < TWO_64 <==>
            forall a: bv32, b: bv32, c: bv32 ::
              Combined(Combined(a, b, m), c, n) == Combined(a, Combined(b, c, n), (m + n) % TWO_64)
  {
    hide Combined;
    if m + n < TWO_64 {
      forall a: bv32, b: bv32, c: bv32
        ensures Combined(Combined(a, b, m), c, n) == Combined(a, Combined(b, c, n), (m + n) % TWO_64)
      {
        CombinedAssociates(a, b, c, m, n);
      }
    } else {
      var k := m + n - TWO_64;
      assert (m + n) % TWO_64 == k;
      CombinedAssociates(ONE, 0, 0, m, n);
      CombinedSeparates(Combined(0, 0, n), k);
    }
  }

  // Advancing 1 by k and by k + 2^64 bytes gives different registers.
  lemma CombinedSeparates(c: bv32, k: nat)
    ensures Combined(ONE, c, k) != Combined(ONE, c, k + TWO_64)
  {
    hide Add;
    hide Mult;
    hide XPow;
    var x := XPow(8 * k);
    MultOne(x);
    MultOne(XPow(8 * (k + TWO_64)));
    XPowAdd(8 * TWO_64, 8 * k);
    WrapShift();
    if Combined(ONE, c, k) == Combined(ONE, c, k + TWO_64) {
      AddCancels(x, XPow(8 * (k + TWO_64)), c);
      XPowCancels(XPow(8 * TWO_64), 8 * k);
      MultOne(x);
      assert false;
    }
  }

  lemma AddCancels(a: bv32, b: bv32, c: bv32)
    requires Add(a, c) == Add(b, c)
    ensures a == b
  {
    hide Add;
    AddTwice(a, c);
    AddTwice(b, c);
  }

  lemma XPowCancels(a: bv32, n: nat)
    requires Mult(a, XPow(n)) == XPow(n)
    ensures a == ONE
  {
    hide Mult;
    hide Shift;
    MultXPow(a, n);
    ShiftCancels(Down, Up, a, n);
    ShiftCancels(Down, Up, ONE, n);
  }

  /** The combination of three checksums, each taken from the same initial register. */
  method CombineThree(init: bv32, crc1: bv32, crc2: bv32, crc3: bv32, size2: nat, size3: nat) returns (r: bv32)
    requires size2 < TWO_64 && size3 < TWO_64
    ensures r == CombinedThree(init, crc1, crc2, crc3, size2, size3)
  {
    hide Combined;
    hide Add;
    var inner := Combine(Add(init, crc1), crc2, size2);
    r := Combine(Add(init, inner), crc3, size3);
  }

  function CombinedThree(init: bv32, crc1: bv32, crc2: bv32, crc3: bv32, size2: nat, size3: nat): bv32 {
    Combined(Add(init, Combined(Add(init, crc1), crc2, size2)), crc3, size3)
  }

  // Adding the initial register once cancels its contribution to the second checksum.
  lemma CombinedCancelsInit(init: bv32, c: bv32, b: seq<bv8>)
    ensures Combined(Add(init, c), Crc(init, b), |b|) == Crc(c, b)
  {
    hide Add;
    hide Mult;
    hide XPow;
    hide Crc;
    var n := 8 * |b|;
    CrcSplitsInit(init, b);
    CrcSplitsInit(c, b);
    MultXPow(Add(init, c), n);
    ShiftAdd(Up, init, c, n);
    hide Shift;
    var s, t, z := Shift(Up, init, n), Shift(Up, c, n), Crc(0, b);
    AddSwap(s, t, s, z);
    AddZero(s);
    AddZero(Add(t, z));
  }

  lemma CombinedThreeIsCrc(init: bv32, a: seq<bv8>, b: seq<bv8>, c: seq<bv8>)
    ensures CombinedThree(init, Crc(init, a), Crc(init, b), Crc(init, c), |b|, |c|) == Crc(init, a + b + c)
  {
    hide Add;
    hide Combined;
    hide Crc;
    CombinedCancelsInit(init, Crc(init, a), b);
    CrcConcat(init, a, b);
    CombinedCancelsInit(init, Crc(init, a + b), c);
    CrcConcat(init, a + b, c);
  }
}
