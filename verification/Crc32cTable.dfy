/** What the table of powers must hold, and how a chain of products establishes it. */
module PowerTables {
  import opened Gf2Register

  function Pow64(i: nat): nat {
    if i == 0 then 1 else 64 * Pow64(i - 1)
  }

  // The exponent of row i's second entry.
  function RowStep(i: nat): nat { 8 * Pow64(i) }

  // Rows of 64 for i = 0..4 and a last row of 4.
  const POPULATED := 324

  // Position 64 * i + n holds x^(8 * n * 64^i), for every populated position.
  ghost predicate IsPowerTable(t: seq<bv32>) {
    |t| == POPULATED && forall j: nat | j < POPULATED :: t[j] == XPow(RowStep(j / 64) * (j % 64))
  }

  // The entries are consecutive powers with step s, starting from exponent e.
  ghost predicate Powers(t: seq<bv32>, s: nat, e: nat) {
    forall r: nat | r < |t| :: t[r] == XPow(e + r * s)
  }

  // Eight products in a row with u = x^s.
  lemma ProductPowers(t: seq<bv32>, next: bv32, u: bv32, s: nat, e: nat)
    requires |t| == 8 && t[0] == XPow(e) && u == XPow(s)
    requires Mult(t[0], u) == t[1] && Mult(t[1], u) == t[2] && Mult(t[2], u) == t[3] && Mult(t[3], u) == t[4]
    requires Mult(t[4], u) == t[5] && Mult(t[5], u) == t[6] && Mult(t[6], u) == t[7] && Mult(t[7], u) == next
    ensures Powers(t, s, e)
    ensures next == XPow(e + 8 * s)
  {
    hide Mult;
    hide XPow;
    XPowAdd(e, s);
    XPowAdd(e + s, s);
    XPowAdd(e + 2 * s, s);
    XPowAdd(e + 3 * s, s);
    XPowAdd(e + 4 * s, s);
    XPowAdd(e + 5 * s, s);
    XPowAdd(e + 6 * s, s);
    XPowAdd(e + 7 * s, s);
  }

  lemma FewPowers()
    ensures XPow(0) == ONE && XPow(4) == 0x08000000 && XPow(8) == 0x00800000 && XPow(12) == 0x00080000
  {
    assert XPow(2) == 0x20000000;
    assert XPow(4) == 0x08000000;
    assert XPow(6) == 0x02000000;
    assert XPow(10) == 0x00200000;
  }

  // The last row: x^s is x^4.
  lemma ShortRowPowers(t: seq<bv32>, s: nat)
    requires t == [ONE, 0x08000000, 0x00800000, 0x00080000] && t[1] == XPow(s)
    ensures Powers(t, s, 0)
  {
    FewPowers();
    hide XPow;
    hide Mult;
    XPowAdd(s, s);
    XPowAdd(4, 4);
    XPowAdd(2 * s, s);
    XPowAdd(8, 4);
    forall r: nat | r < 4 ensures t[r] == XPow(r * s) {
      if r == 0 { } else if r == 1 { } else if r == 2 { } else { }
    }
  }

  lemma LinePosition(j: nat, s: nat)
    ensures j / 8 / 8 == j / 64
    ensures s * (8 * (j / 8 % 8)) + (j % 8) * s == s * (j % 64)
  {
    var a, b := j / 8, j % 8;
    var c, d := a / 8, a % 8;
    assert j == 64 * c + (8 * d + b) && 8 * d + b < 64;
    assert j / 64 == c && j % 64 == 8 * d + b;
    Distributes(s, 8 * d, b);
  }

  lemma Distributes(s: nat, x: nat, y: nat)
    ensures s * x + y * s == s * (x + y)
  {
  }

  lemma FromLines(t: seq<bv32>, lines: seq<seq<bv32>>)
    requires |lines| == 41 && forall k: nat | k <= 40 :: |lines[k]| == if k < 40 then 8 else 4
    requires forall k: nat | k <= 40 :: Powers(lines[k], RowStep(k / 8), RowStep(k / 8) * (8 * (k % 8)))
    requires |t| == POPULATED && forall j: nat | j < POPULATED :: t[j] == lines[j / 8][j % 8]
    ensures IsPowerTable(t)
  {
    hide XPow;
    hide RowStep;
    forall j: nat | j < POPULATED ensures t[j] == XPow(RowStep(j / 64) * (j % 64)) {
      EntryInLine(t, lines, j);
    }
  }

  lemma EntryInLine(t: seq<bv32>, lines: seq<seq<bv32>>, j: nat)
    requires j < |t| && j / 8 < |lines| && j % 8 < |lines[j / 8]| && t[j] == lines[j / 8][j % 8]
    requires Powers(lines[j / 8], RowStep(j / 8 / 8), RowStep(j / 8 / 8) * (8 * (j / 8 % 8)))
    ensures t[j] == XPow(RowStep(j / 64) * (j % 64))
  {
    hide XPow;
    hide RowStep;
    LinePosition(j, RowStep(j / 8 / 8));
  }

  lemma RowSteps()
    ensures RowStep(0) == 8
    ensures RowStep(1) == 64 * RowStep(0) && RowStep(2) == 64 * RowStep(1) && RowStep(3) == 64 * RowStep(2)
    ensures RowStep(4) == 64 * RowStep(3) && RowStep(5) == 64 * RowStep(4)
  {
  }
}

/** The table of powers x^(8 * n * 64^i) mod P that drives length combination: 324 populated entries,
 *  rows of 64 for i = 0..4 and a last row of 4 for i = 5.
 *
 *  Every entry is checked: within a row each entry is its predecessor times the row's second entry,
 *  and that entry is the product which ends the row before.
 */
module Crc32cTable {
  import opened Gf2Register
  import opened PowerTables

  // The populated entries, eight to a line; a row is eight lines.
  const L0: seq<bv32> := [0x80000000, 0x00800000, 0x00008000, 0x00000080, 0x82f63b78, 0xfbc3faf9, 0x8b277743, 0x52a0c93f]
  const L1: seq<bv32> := [0x6ea2d55c, 0x1c08b7d6, 0xf56e0ef4, 0x34019664, 0xa66805eb, 0x7a1f6b24, 0xe75d06aa, 0xc94ec098]
  const L2: seq<bv32> := [0x18b8ea18, 0x9a9f274a, 0x2a03aaa3, 0xb13145f8, 0x790606ff, 0xad045557, 0x8542ba6d, 0xde6b9d0b]
  const L3: seq<bv32> := [0x9957c0a6, 0x8473058e, 0x2e0af75a, 0x3ae9f81c, 0x5d27e147, 0x95ec5eb6, 0x9421797f, 0x2f1f4950]
  const L4: seq<bv32> := [0x510ac59a, 0xf91bdeea, 0x882b9bfc, 0xbea58b3e, 0x9c25531d, 0xafeaaeef, 0xbd8c7e90, 0x92157069]
  const L5: seq<bv32> := [0x19e65dde, 0x7fb2b8d1, 0x21c7d010, 0x107f00bf, 0xec1631ed, 0x5cf4f2f8, 0x79ebc348, 0xcbdbaeb0]
  const L6: seq<bv32> := [0xb2dea967, 0xb5be2920, 0x200830f7, 0x278403ae, 0x0e148e82, 0x63c35f01, 0xf208405c, 0x1c941d43]
  const L7: seq<bv32> := [0x52377a55, 0x6486f9b5, 0x8780e02c, 0x6d79c1ee, 0x4f256efc, 0xbe6285cb, 0x5abaef7a, 0x1a20c6da]
  const L8: seq<bv32> := [0x80000000, 0xb82be955, 0xb8fdb1e7, 0x18e4a304, 0x88e56f72, 0x9030a49c, 0x67db2c4a, 0xe744dcb2]
  const L9: seq<bv32> := [0x74c360a4, 0x8e9906a7, 0xb469724f, 0x24d84074, 0x631bb273, 0xee2a2d56, 0x654f84e7, 0x629069c6]
  const L10: seq<bv32> := [0xe4172b16, 0xd3cb2137, 0x4f47bf52, 0x35202632, 0x71892b1b, 0xd27285db, 0x69c2af09, 0xd271158e]
  const L11: seq<bv32> := [0x835305c9, 0xeaa500ac, 0x0e36a726, 0x46951631, 0x196b1eae, 0x584ea70d, 0x15e8653c, 0xb5a65826]
  const L12: seq<bv32> := [0x0d65762a, 0xebfcce28, 0xe6aef08f, 0x013ee85b, 0xafc81338, 0x61c30b85, 0xe31e7f5b, 0x5e3750cd]
  const L13: seq<bv32> := [0xb5a50ab7, 0x1977c75d, 0x46bf959e, 0xe78cd046, 0xf373c3ac, 0x950979dd, 0xe31b4008, 0xc726c863]
  const L14: seq<bv32> := [0x5f60970f, 0xf977f383, 0x9e7b1c10, 0xea2110f8, 0xd46d3063, 0xe2220529, 0xebd59d26, 0xedbe69a1]
  const L15: seq<bv32> := [0x3a5275ea, 0x1a2bbe21, 0xd597ad7e, 0xcb8c45a6, 0x02331c01, 0xe8639712, 0xa957c550, 0xbcfda51c]
  const L16: seq<bv32> := [0x80000000, 0x35d73a62, 0x28461564, 0x43eefc9f, 0xbf455269, 0x5edcdeb9, 0x65059450, 0x4e6f41a4]
  const L17: seq<bv32> := [0xe2ea32dc, 0xf5b95b32, 0x695a4c87, 0xf204502c, 0x9a4f01b6, 0x941a0916, 0x4303cb97, 0x4c3d3d65]
  const L18: seq<bv32> := [0xfe7740e6, 0xf0cb95d2, 0xab4c722a, 0xba35e2e1, 0x99569602, 0x294060e6, 0xd65a1d78, 0x18103ff9]
  const L19: seq<bv32> := [0x78b57ca2, 0x97b3a098, 0x30a8edff, 0x3fb4e611, 0x999dcda1, 0xd9dd2e27, 0x5918f954, 0x8ee73513]
  const L20: seq<bv32> := [0xf946610b, 0xa5f4742d, 0x424b8555, 0xd017c143, 0xc274d1e2, 0x0280b04e, 0xd25bb5e0, 0x552a0918]
  const L21: seq<bv32> := [0xf5942afb, 0x55d7a3f8, 0xd1b533ee, 0x9fa8def5, 0x24c42589, 0x5988dbb3, 0xa7e1cab4, 0xebaee1b4]
  const L22: seq<bv32> := [0xa0a51f5f, 0xbd1a9096, 0x1ced05cc, 0x6748e206, 0x506431b0, 0x6c399e24, 0x30af367f, 0x129ee2f5]
  const L23: seq<bv32> := [0x8fd57416, 0x85ee5ed0, 0x97504a07, 0x52e710c7, 0x4ea3e89b, 0xde8567b5, 0xb5c84194, 0x80526793]
  const L24: seq<bv32> := [0x80000000, 0x3c204f8f, 0x538586e3, 0x683988b2, 0x59726915, 0x30c6966d, 0x5be8b36e, 0x42c5623c]
  const L25: seq<bv32> := [0x734d5309, 0x1084fed0, 0x68a5f0f9, 0x1573fe60, 0xdb1b3315, 0xe0a82539, 0xe5c304f7, 0xce8068d1]
  const L26: seq<bv32> := [0xbc1ac763, 0x47514f16, 0xf7f919a7, 0x5005a217, 0x11b31f9d, 0x496f21b8, 0x0bc2a806, 0xbba39916]
  const L27: seq<bv32> := [0x5414bce3, 0x401f0313, 0xe0ee85d5, 0x4fb6f7ac, 0x54f2f77b, 0x738279cb, 0x6b645133, 0x05a44de1]
  const L28: seq<bv32> := [0x7d0722cc, 0x8ca9c7c7, 0x50806311, 0x58ba16a0, 0xbae70d08, 0xde3a8229, 0x6652a6cc, 0x36b6490b]
  const L29: seq<bv32> := [0x238acb2b, 0xe3f9a08b, 0x23a7923f, 0xb0609b9b, 0xd2074e2b, 0x342f6e39, 0x5bcf2cf2, 0x8096907d]
  const L30: seq<bv32> := [0x546dfa6e, 0x75337ed4, 0x9c1de396, 0x91e7afe7, 0x3f76a96c, 0x00032b5e, 0x1a2a93d0, 0x3b0c8728]
  const L31: seq<bv32> := [0xa3aa3946, 0x9b170192, 0xcc33e9f6, 0x4152bdb8, 0xf054ca48, 0x0369fe6a, 0x6ec7bef8, 0x3fe8b9ff]
  const L32: seq<bv32> := [0x80000000, 0xd289cabe, 0xe94ca9bc, 0x6ac5538f, 0x05b74f3f, 0x9e0b2298, 0x14de47cd, 0x3a9fb07d]
  const L33: seq<bv32> := [0xa51e1f42, 0xfe578179, 0x038d778c, 0x5fe3cf44, 0xb7c64e40, 0x20cbb8e3, 0x4f04f803, 0x56745358]
  const L34: seq<bv32> := [0x40000000, 0x6944e55f, 0x74a654de, 0xb79492bf, 0x802d9ce7, 0x4f05914c, 0x8899189e, 0x9fb9e346]
  const L35: seq<bv32> := [0x528f0fa1, 0xfdddfbc4, 0x01c6bbc6, 0x2ff1e7a2, 0x5be32720, 0x9293e709, 0xa5744779, 0x2b3a29ac]
  const L36: seq<bv32> := [0x20000000, 0xb65449d7, 0x3a532a6f, 0xd93c7227, 0xc2e0f50b, 0x2782c8a6, 0x444c8c4f, 0x4fdcf1a3]
  const L37: seq<bv32> := [0xabb1bca8, 0x7eeefde2, 0x00e35de3, 0x17f8f3d1, 0x2df19390, 0xcbbfc8fc, 0xd04c18c4, 0x159d14d6]
  const L38: seq<bv32> := [0x10000000, 0xd9dc1f93, 0x9fdfae4f, 0xee68026b, 0xe38641fd, 0x13c16453, 0xa0d07d5f, 0xa51843a9]
  const L39: seq<bv32> := [0x55d8de54, 0x3f777ef1, 0x82879589, 0x890a4290, 0x16f8c9c8, 0x65dfe47e, 0x68260c62, 0x0ace8a6b]
  const L40: seq<bv32> := [0x80000000, 0x08000000, 0x00800000, 0x00080000]

  function Line(k: nat): (line: seq<bv32>)
    requires k <= 40
    ensures |line| == if k < 40 then 8 else 4
  {
    match k
    case 0 => L0 case 1 => L1 case 2 => L2 case 3 => L3 case 4 => L4 case 5 => L5 case 6 => L6 case 7 => L7
    case 8 => L8 case 9 => L9 case 10 => L10 case 11 => L11 case 12 => L12 case 13 => L13 case 14 => L14 case 15 => L15
    case 16 => L16 case 17 => L17 case 18 => L18 case 19 => L19 case 20 => L20 case 21 => L21 case 22 => L22 case 23 => L23
    case 24 => L24 case 25 => L25 case 26 => L26 case 27 => L27 case 28 => L28 case 29 => L29 case 30 => L30 case 31 => L31
    case 32 => L32 case 33 => L33 case 34 => L34 case 35 => L35 case 36 => L36 case 37 => L37 case 38 => L38 case 39 => L39
    case _ => L40
  }

  const TABLE: seq<bv32> := seq(POPULATED, j requires 0 <= j < POPULATED => Line(j / 8)[j % 8])

  // ----- multiplication by a constant, from the constant's products with x^0 to x^31 -----

  // The part of a product contributed by the four leading coefficients of a.
  function Pick4(a: bv32, b0: bv32, b1: bv32, b2: bv32, b3: bv32): bv32 {
    Add(Add(if a & 0x80000000 != 0 then b0 else 0, if a & 0x40000000 != 0 then b1 else 0),
        Add(if a & 0x20000000 != 0 then b2 else 0, if a & 0x10000000 != 0 then b3 else 0))
  }

  // One coefficient at a time, as the bit loop of crc32Mult runs.
  lemma ActPeel(a: bv32, n: nat, b: bv32)
    ensures Act(Up, TopBits(a, n + 1), b) ==
            Add(if Top(a) then b else 0, Act(Up, TopBits(Double(a), n), MulX(b)))
  {
    hide Add;
    hide MulX;
    hide Top;
    hide Double;
    ActStep(Up, Up, TopBits(Double(a), n), b);
    assert TopBits(a, n + 1)[1..] == TopBits(Double(a), n);
  }

  lemma ActEmpty(a: bv32, v: bv32)
    ensures Act(Up, TopBits(a, 0), v) == 0
  {
  }

  lemma TopTests(a: bv32)
    ensures Top(a) <==> a & 0x80000000 != 0
    ensures Top(Double(a)) <==> a & 0x40000000 != 0
    ensures Top(Double(Double(a))) <==> a & 0x20000000 != 0
    ensures Top(Double(Double(Double(a)))) <==> a & 0x10000000 != 0
  {
  }

  function Nibble(a: bv32): bv32 { a << 4 }

  lemma DoubleFourTimes(a: bv32)
    ensures Double(Double(Double(Double(a)))) == Nibble(a)
  {
  }

  lemma Nibbles(a: bv32)
    ensures Nibble(a) == a << 4
    ensures Nibble(Nibble(a)) == (a << 4) << 4
    ensures Nibble(Nibble(Nibble(a))) == ((a << 4) << 4) << 4
    ensures Nibble(Nibble(Nibble(Nibble(a)))) == (((a << 4) << 4) << 4) << 4
    ensures Nibble(Nibble(Nibble(Nibble(Nibble(a))))) == ((((a << 4) << 4) << 4) << 4) << 4
    ensures Nibble(Nibble(Nibble(Nibble(Nibble(Nibble(a)))))) == (((((a << 4) << 4) << 4) << 4) << 4) << 4
    ensures Nibble(Nibble(Nibble(Nibble(Nibble(Nibble(Nibble(a))))))) == ((((((a << 4) << 4) << 4) << 4) << 4) << 4) << 4
  {
  }

  lemma Peel4(a: bv32, n: nat, b0: bv32, b1: bv32, b2: bv32, b3: bv32, b4: bv32)
    requires Follow(b0, b1, b2, b3, b4)
    ensures Act(Up, TopBits(a, n + 4), b0) == Add(Pick4(a, b0, b1, b2, b3), Act(Up, TopBits(Nibble(a), n), b4))
  {
    TopTests(a);
    DoubleFourTimes(a);
    assert MulX(b0) == b1 && MulX(b1) == b2 && MulX(b2) == b3 && MulX(b3) == b4;
    hide *;
    var a1 := Double(a);
    var a2 := Double(a1);
    var a3 := Double(a2);
    ActPeel(a, n + 3, b0);
    ActPeel(a1, n + 2, b1);
    ActPeel(a2, n + 1, b2);
    ActPeel(a3, n, b3);
    var s0, s1 := if Top(a) then b0 else 0, if Top(a1) then b1 else 0;
    var s2, s3 := if Top(a2) then b2 else 0, if Top(a3) then b3 else 0;
    var r := Act(Up, TopBits(Nibble(a), n), b4);
    Pick4Is(a, b0, b1, b2, b3);
    FourAdd(s0, s1, s2, s3, r);
  }

  lemma Pick4Is(a: bv32, b0: bv32, b1: bv32, b2: bv32, b3: bv32)
    ensures Pick4(a, b0, b1, b2, b3) ==
            Add(Add(if a & 0x80000000 != 0 then b0 else 0, if a & 0x40000000 != 0 then b1 else 0),
                Add(if a & 0x20000000 != 0 then b2 else 0, if a & 0x10000000 != 0 then b3 else 0))
  {
    hide Add;
  }

  // b1 to b4 are the products of b0 with x^1 to x^4.
  predicate Follow(b0: bv32, b1: bv32, b2: bv32, b3: bv32, b4: bv32) {
    MulX(b0) == b1 && MulX(b1) == b2 && MulX(b2) == b3 && MulX(b3) == b4
  }

  lemma Peel16(a: bv32, n: nat, b0: bv32, b1: bv32, b2: bv32, b3: bv32, b4: bv32, b5: bv32, b6: bv32, b7: bv32,
               b8: bv32, b9: bv32, b10: bv32, b11: bv32, b12: bv32, b13: bv32, b14: bv32, b15: bv32, b16: bv32)
    requires Follow(b0, b1, b2, b3, b4) && Follow(b4, b5, b6, b7, b8)
    requires Follow(b8, b9, b10, b11, b12) && Follow(b12, b13, b14, b15, b16)
    ensures var a1 := Nibble(a); var a2 := Nibble(a1); var a3 := Nibble(a2);
      Act(Up, TopBits(a, n + 16), b0) ==
      Add(Pick4(a, b0, b1, b2, b3),
      Add(Pick4(a1, b4, b5, b6, b7),
      Add(Pick4(a2, b8, b9, b10, b11),
      Add(Pick4(a3, b12, b13, b14, b15), Act(Up, TopBits(Nibble(a3), n), b16)))))
  {
    hide *;
    var a1 := Nibble(a);
    var a2 := Nibble(a1);
    var a3 := Nibble(a2);
    Peel4(a, n + 12, b0, b1, b2, b3, b4);
    Peel4(a1, n + 8, b4, b5, b6, b7, b8);
    Peel4(a2, n + 4, b8, b9, b10, b11, b12);
    Peel4(a3, n, b12, b13, b14, b15, b16);
  }

  // The last sixteen.
  lemma PeelLast(a: bv32, b0: bv32, b1: bv32, b2: bv32, b3: bv32, b4: bv32, b5: bv32, b6: bv32, b7: bv32,
                 b8: bv32, b9: bv32, b10: bv32, b11: bv32, b12: bv32, b13: bv32, b14: bv32, b15: bv32, b16: bv32)
    requires Follow(b0, b1, b2, b3, b4) && Follow(b4, b5, b6, b7, b8)
    requires Follow(b8, b9, b10, b11, b12) && Follow(b12, b13, b14, b15, b16)
    ensures var a1 := Nibble(a); var a2 := Nibble(a1); var a3 := Nibble(a2);
      Act(Up, TopBits(a, 16), b0) ==
      Add(Pick4(a, b0, b1, b2, b3),
      Add(Pick4(a1, b4, b5, b6, b7),
      Add(Pick4(a2, b8, b9, b10, b11), Pick4(a3, b12, b13, b14, b15))))
  {
    hide *;
    var a3 := Nibble(Nibble(Nibble(a)));
    Peel16(a, 0, b0, b1, b2, b3, b4, b5, b6, b7, b8, b9, b10, b11, b12, b13, b14, b15, b16);
    ActEmpty(Nibble(a3), b16);
    AddZero(Pick4(a3, b12, b13, b14, b15));
  }

  lemma FourAdd(p0: bv32, p1: bv32, p2: bv32, p3: bv32, r: bv32)
    ensures Add(p0, Add(p1, Add(p2, Add(p3, r)))) == Add(Add(Add(p0, p1), Add(p2, p3)), r)
  {
    hide Add;
    AddAssoc(p2, p3, r);
    AddAssoc(p0, p1, Add(Add(p2, p3), r));
    AddAssoc(Add(p0, p1), Add(p2, p3), r);
  }

  // b0 to b31 are the products of b0 with x^0 to x^31, and next that with x^32.
  predicate IsBasis(b0: bv32, b1: bv32, b2: bv32, b3: bv32, b4: bv32, b5: bv32, b6: bv32, b7: bv32,
                    b8: bv32, b9: bv32, b10: bv32, b11: bv32, b12: bv32, b13: bv32, b14: bv32, b15: bv32,
                    b16: bv32, b17: bv32, b18: bv32, b19: bv32, b20: bv32, b21: bv32, b22: bv32, b23: bv32,
                    b24: bv32, b25: bv32, b26: bv32, b27: bv32, b28: bv32, b29: bv32, b30: bv32, b31: bv32, next: bv32)
  {
    && Follow(b0, b1, b2, b3, b4) && Follow(b4, b5, b6, b7, b8)
    && Follow(b8, b9, b10, b11, b12) && Follow(b12, b13, b14, b15, b16)
    && Follow(b16, b17, b18, b19, b20) && Follow(b20, b21, b22, b23, b24)
    && Follow(b24, b25, b26, b27, b28) && Follow(b28, b29, b30, b31, next)
  }

  // The sum of those products that a picks.
  function PickBasis(a: bv32,
                     b0: bv32, b1: bv32, b2: bv32, b3: bv32, b4: bv32, b5: bv32, b6: bv32, b7: bv32,
                     b8: bv32, b9: bv32, b10: bv32, b11: bv32, b12: bv32, b13: bv32, b14: bv32, b15: bv32,
                     b16: bv32, b17: bv32, b18: bv32, b19: bv32, b20: bv32, b21: bv32, b22: bv32, b23: bv32,
                     b24: bv32, b25: bv32, b26: bv32, b27: bv32, b28: bv32, b29: bv32, b30: bv32, b31: bv32): bv32
  {
    var a1 := a << 4;
    var a2 := a1 << 4;
    var a3 := a2 << 4;
    var a4 := a3 << 4;
    var a5 := a4 << 4;
    var a6 := a5 << 4;
    var a7 := a6 << 4;
    Add(Pick4(a, b0, b1, b2, b3),
    Add(Pick4(a1, b4, b5, b6, b7),
    Add(Pick4(a2, b8, b9, b10, b11),
    Add(Pick4(a3, b12, b13, b14, b15),
    Add(Pick4(a4, b16, b17, b18, b19),
    Add(Pick4(a5, b20, b21, b22, b23),
    Add(Pick4(a6, b24, b25, b26, b27),
    Pick4(a7, b28, b29, b30, b31))))))))
  }

  lemma PickBasisIs(a: bv32,
                    b0: bv32, b1: bv32, b2: bv32, b3: bv32, b4: bv32, b5: bv32, b6: bv32, b7: bv32,
                    b8: bv32, b9: bv32, b10: bv32, b11: bv32, b12: bv32, b13: bv32, b14: bv32, b15: bv32,
                    b16: bv32, b17: bv32, b18: bv32, b19: bv32, b20: bv32, b21: bv32, b22: bv32, b23: bv32,
                    b24: bv32, b25: bv32, b26: bv32, b27: bv32, b28: bv32, b29: bv32, b30: bv32, b31: bv32)
    ensures
      var a1 := Nibble(a);
      var a2 := Nibble(a1);
      var a3 := Nibble(a2);
      var a4 := Nibble(a3);
      var a5 := Nibble(a4);
      var a6 := Nibble(a5);
      var a7 := Nibble(a6);
      PickBasis(a, b0, b1, b2, b3, b4, b5, b6, b7, b8, b9, b10, b11, b12, b13, b14, b15,
                   b16, b17, b18, b19, b20, b21, b22, b23, b24, b25, b26, b27, b28, b29, b30, b31) ==
      Add(Pick4(a, b0, b1, b2, b3),
      Add(Pick4(a1, b4, b5, b6, b7),
      Add(Pick4(a2, b8, b9, b10, b11),
      Add(Pick4(a3, b12, b13, b14, b15),
      Add(Pick4(a4, b16, b17, b18, b19),
      Add(Pick4(a5, b20, b21, b22, b23),
      Add(Pick4(a6, b24, b25, b26, b27),
      Pick4(a7, b28, b29, b30, b31))))))))
  {
    hide Nibble;
    hide Pick4;
    hide Add;
    Nibbles(a);
  }

  lemma PickBasisMultiplies(a: bv32,
                            b0: bv32, b1: bv32, b2: bv32, b3: bv32, b4: bv32, b5: bv32, b6: bv32, b7: bv32,
                            b8: bv32, b9: bv32, b10: bv32, b11: bv32, b12: bv32, b13: bv32, b14: bv32, b15: bv32,
                            b16: bv32, b17: bv32, b18: bv32, b19: bv32, b20: bv32, b21: bv32, b22: bv32, b23: bv32,
                            b24: bv32, b25: bv32, b26: bv32, b27: bv32, b28: bv32, b29: bv32, b30: bv32, b31: bv32,
                            next: bv32)
    requires IsBasis(b0, b1, b2, b3, b4, b5, b6, b7, b8, b9, b10, b11, b12, b13, b14, b15, b16,
                     b17, b18, b19, b20, b21, b22, b23, b24, b25, b26, b27, b28, b29, b30, b31, next)
    ensures PickBasis(a, b0, b1, b2, b3, b4, b5, b6, b7, b8, b9, b10, b11, b12, b13, b14, b15,
                         b16, b17, b18, b19, b20, b21, b22, b23, b24, b25, b26, b27, b28, b29, b30, b31) == Mult(a, b0)
  {
    hide Follow;
    hide Nibble;
    hide Pick4;
    hide PickBasis;
    hide Add;
    hide Act;
    hide TopBits;
    PickBasisIs(a, b0, b1, b2, b3, b4, b5, b6, b7, b8, b9, b10, b11, b12, b13, b14, b15,
                   b16, b17, b18, b19, b20, b21, b22, b23, b24, b25, b26, b27, b28, b29, b30, b31);
    var a4 := Nibble(Nibble(Nibble(Nibble(a))));
    Peel16(a, 16, b0, b1, b2, b3, b4, b5, b6, b7, b8, b9, b10, b11, b12, b13, b14, b15, b16);
    PeelLast(a4, b16, b17, b18, b19, b20, b21, b22, b23, b24, b25, b26, b27, b28, b29, b30, b31, next);
  }

  // a times b0.
  function TimesBasis(a: bv32,
                      b0: bv32, b1: bv32, b2: bv32, b3: bv32, b4: bv32, b5: bv32, b6: bv32, b7: bv32,
                      b8: bv32, b9: bv32, b10: bv32, b11: bv32, b12: bv32, b13: bv32, b14: bv32, b15: bv32,
                      b16: bv32, b17: bv32, b18: bv32, b19: bv32, b20: bv32, b21: bv32, b22: bv32, b23: bv32,
                      b24: bv32, b25: bv32, b26: bv32, b27: bv32, b28: bv32, b29: bv32, b30: bv32, b31: bv32,
                      next: bv32): (r: bv32)
    requires IsBasis(b0, b1, b2, b3, b4, b5, b6, b7, b8, b9, b10, b11, b12, b13, b14, b15, b16,
                     b17, b18, b19, b20, b21, b22, b23, b24, b25, b26, b27, b28, b29, b30, b31, next)
    ensures r == Mult(a, b0)
  {
    PickBasisMultiplies(a, b0, b1, b2, b3, b4, b5, b6, b7, b8, b9, b10, b11, b12, b13, b14, b15, b16,
                           b17, b18, b19, b20, b21, b22, b23, b24, b25, b26, b27, b28, b29, b30, b31, next);
    PickBasis(a, b0, b1, b2, b3, b4, b5, b6, b7, b8, b9, b10, b11, b12, b13, b14, b15,
                 b16, b17, b18, b19, b20, b21, b22, b23, b24, b25, b26, b27, b28, b29, b30, b31)
  }

  // The second entry of row i.
  function Unit(i: nat): bv32 {
    match i
    case 0 => 0x00800000
    case 1 => 0xb82be955
    case 2 => 0x35d73a62
    case 3 => 0x3c204f8f
    case _ => 0xd289cabe
  }

  function TimesRow0(a: bv32): (r: bv32)
    ensures r == Mult(a, 0x00800000)
  {
    TimesBasis(a, 0x00800000, 0x00400000, 0x00200000, 0x00100000, 0x00080000, 0x00040000, 0x00020000, 0x00010000,
                  0x00008000, 0x00004000, 0x00002000, 0x00001000, 0x00000800, 0x00000400, 0x00000200, 0x00000100,
                  0x00000080, 0x00000040, 0x00000020, 0x00000010, 0x00000008, 0x00000004, 0x00000002, 0x00000001,
                  0x82f63b78, 0x417b1dbc, 0x20bd8ede, 0x105ec76f, 0x8ad958cf, 0xc79a971f, 0xe13b70f7, 0xf26b8303,
                  0xfbc3faf9)
  }

  function TimesRow1(a: bv32): (r: bv32)
    ensures r == Mult(a, 0xb82be955)
  {
    TimesBasis(a, 0xb82be955, 0xdee3cfd2, 0x6f71e7e9, 0xb54ec88c, 0x5aa76446, 0x2d53b223, 0x945fe269, 0xc8d9ca4c,
                  0x646ce526, 0x32367293, 0x9bed0231, 0xcf00ba60, 0x67805d30, 0x33c02e98, 0x19e0174c, 0x0cf00ba6,
                  0x067805d3, 0x81ca3991, 0xc21327b0, 0x610993d8, 0x3084c9ec, 0x184264f6, 0x0c21327b, 0x84e6a245,
                  0xc0856a5a, 0x6042b52d, 0xb2d761ee, 0x596bb0f7, 0xae43e303, 0xd5d7caf9, 0xe81dde04, 0x740eef02,
                  0x3a077781)
  }

  function TimesRow2(a: bv32): (r: bv32)
    ensures r == Mult(a, 0x35d73a62)
  {
    TimesBasis(a, 0x35d73a62, 0x1aeb9d31, 0x8f83f5e0, 0x47c1faf0, 0x23e0fd78, 0x11f07ebc, 0x08f83f5e, 0x047c1faf,
                  0x80c834af, 0xc292212f, 0xe3bf2bef, 0xf329ae8f, 0xfb62ec3f, 0xff474d67, 0xfd559dcb, 0xfc5cf59d,
                  0xfcd841b6, 0x7e6c20db, 0xbdc02b15, 0xdc162ef2, 0x6e0b1779, 0xb5f3b0c4, 0x5af9d862, 0x2d7cec31,
                  0x94484d60, 0x4a2426b0, 0x25121358, 0x128909ac, 0x094484d6, 0x04a2426b, 0x80a71a4d, 0xc2a5b65e,
                  0x6152db2f)
  }

  function TimesRow3(a: bv32): (r: bv32)
    ensures r == Mult(a, 0x3c204f8f)
  {
    TimesBasis(a, 0x3c204f8f, 0x9ce61cbf, 0xcc853527, 0xe4b4a1eb, 0xf0ac6b8d, 0xfaa00ebe, 0x7d50075f, 0xbc5e38d7,
                  0xdcd92713, 0xec9aa8f1, 0xf4bb6f00, 0x7a5db780, 0x3d2edbc0, 0x1e976de0, 0x0f4bb6f0, 0x07a5db78,
                  0x03d2edbc, 0x01e976de, 0x00f4bb6f, 0x828c66cf, 0xc3b0081f, 0xe32e3f77, 0xf36124c3, 0xfb46a919,
                  0xff556ff4, 0x7faab7fa, 0x3fd55bfd, 0x9d1c9686, 0x4e8e4b43, 0xa5b11ed9, 0xd02eb414, 0x68175a0a,
                  0x340bad05)
  }

  function TimesRow4(a: bv32): (r: bv32)
    ensures r == Mult(a, 0xd289cabe)
  {
    TimesBasis(a, 0xd289cabe, 0x6944e55f, 0xb65449d7, 0xd9dc1f93, 0xee1834b1, 0xf5fa2120, 0x7afd1090, 0x3d7e8848,
                  0x1ebf4424, 0x0f5fa212, 0x07afd109, 0x8121d3fc, 0x4090e9fe, 0x204874ff, 0x92d20107, 0xcb9f3bfb,
                  0xe739a685, 0xf16ae83a, 0x78b5741d, 0xbeac8176, 0x5f5640bb, 0xad5d1b25, 0xd458b6ea, 0x6a2c5b75,
                  0xb7e016c2, 0x5bf00b61, 0xaf0e3ec8, 0x57871f64, 0x2bc38fb2, 0x15e1c7d9, 0x8806d894, 0x44036c4a,
                  0x2201b625)
  }

  // Its product with a.
  function Times(i: nat, a: bv32): (r: bv32)
    requires i < 5
    ensures r == Mult(a, Unit(i))
  {
    match i
    case 0 => TimesRow0(a)
    case 1 => TimesRow1(a)
    case 2 => TimesRow2(a)
    case 3 => TimesRow3(a)
    case _ => TimesRow4(a)
  }

  // t1 to t8 continue t0 by repeated multiplication with the second entry of row i.
  predicate Chain(i: nat, t0: bv32, t1: bv32, t2: bv32, t3: bv32, t4: bv32, t5: bv32, t6: bv32, t7: bv32, t8: bv32)
    requires i < 5
  {
    && Times(i, t0) == t1 && Times(i, t1) == t2 && Times(i, t2) == t3 && Times(i, t3) == t4
    && Times(i, t4) == t5 && Times(i, t5) == t6 && Times(i, t6) == t7 && Times(i, t7) == t8
  }

  predicate LineChained(i: nat, t: seq<bv32>, next: bv32)
    requires i < 5 && |t| == 8
  {
    Chain(i, t[0], t[1], t[2], t[3], t[4], t[5], t[6], t[7], next)
  }

  lemma Row0ProductsA()
    ensures Chain(0, 0x80000000, 0x00800000, 0x00008000, 0x00000080, 0x82f63b78, 0xfbc3faf9, 0x8b277743, 0x52a0c93f, 0x6ea2d55c)
    ensures Chain(0, 0x6ea2d55c, 0x1c08b7d6, 0xf56e0ef4, 0x34019664, 0xa66805eb, 0x7a1f6b24, 0xe75d06aa, 0xc94ec098, 0x18b8ea18)
  {
    hide Mult;
    hide MulX;
    hide IsBasis;
  }

  lemma Row0ProductsB()
    ensures Chain(0, 0x18b8ea18, 0x9a9f274a, 0x2a03aaa3, 0xb13145f8, 0x790606ff, 0xad045557, 0x8542ba6d, 0xde6b9d0b, 0x9957c0a6)
    ensures Chain(0, 0x9957c0a6, 0x8473058e, 0x2e0af75a, 0x3ae9f81c, 0x5d27e147, 0x95ec5eb6, 0x9421797f, 0x2f1f4950, 0x510ac59a)
  {
    hide Mult;
    hide MulX;
    hide IsBasis;
  }

  lemma Row0ProductsC()
    ensures Chain(0, 0x510ac59a, 0xf91bdeea, 0x882b9bfc, 0xbea58b3e, 0x9c25531d, 0xafeaaeef, 0xbd8c7e90, 0x92157069, 0x19e65dde)
    ensures Chain(0, 0x19e65dde, 0x7fb2b8d1, 0x21c7d010, 0x107f00bf, 0xec1631ed, 0x5cf4f2f8, 0x79ebc348, 0xcbdbaeb0, 0xb2dea967)
  {
    hide Mult;
    hide MulX;
    hide IsBasis;
  }

  lemma Row0ProductsD()
    ensures Chain(0, 0xb2dea967, 0xb5be2920, 0x200830f7, 0x278403ae, 0x0e148e82, 0x63c35f01, 0xf208405c, 0x1c941d43, 0x52377a55)
    ensures Chain(0, 0x52377a55, 0x6486f9b5, 0x8780e02c, 0x6d79c1ee, 0x4f256efc, 0xbe6285cb, 0x5abaef7a, 0x1a20c6da, 0xb82be955)
  {
    hide Mult;
    hide MulX;
    hide IsBasis;
  }

  lemma Row1ProductsA()
    ensures Chain(1, 0x80000000, 0xb82be955, 0xb8fdb1e7, 0x18e4a304, 0x88e56f72, 0x9030a49c, 0x67db2c4a, 0xe744dcb2, 0x74c360a4)
    ensures Chain(1, 0x74c360a4, 0x8e9906a7, 0xb469724f, 0x24d84074, 0x631bb273, 0xee2a2d56, 0x654f84e7, 0x629069c6, 0xe4172b16)
  {
    hide Mult;
    hide MulX;
    hide IsBasis;
  }

  lemma Row1ProductsB()
    ensures Chain(1, 0xe4172b16, 0xd3cb2137, 0x4f47bf52, 0x35202632, 0x71892b1b, 0xd27285db, 0x69c2af09, 0xd271158e, 0x835305c9)
    ensures Chain(1, 0x835305c9, 0xeaa500ac, 0x0e36a726, 0x46951631, 0x196b1eae, 0x584ea70d, 0x15e8653c, 0xb5a65826, 0x0d65762a)
  {
    hide Mult;
    hide MulX;
    hide IsBasis;
  }

  lemma Row1ProductsC()
    ensures Chain(1, 0x0d65762a, 0xebfcce28, 0xe6aef08f, 0x013ee85b, 0xafc81338, 0x61c30b85, 0xe31e7f5b, 0x5e3750cd, 0xb5a50ab7)
    ensures Chain(1, 0xb5a50ab7, 0x1977c75d, 0x46bf959e, 0xe78cd046, 0xf373c3ac, 0x950979dd, 0xe31b4008, 0xc726c863, 0x5f60970f)
  {
    hide Mult;
    hide MulX;
    hide IsBasis;
  }

  lemma Row1ProductsD()
    ensures Chain(1, 0x5f60970f, 0xf977f383, 0x9e7b1c10, 0xea2110f8, 0xd46d3063, 0xe2220529, 0xebd59d26, 0xedbe69a1, 0x3a5275ea)
    ensures Chain(1, 0x3a5275ea, 0x1a2bbe21, 0xd597ad7e, 0xcb8c45a6, 0x02331c01, 0xe8639712, 0xa957c550, 0xbcfda51c, 0x35d73a62)
  {
    hide Mult;
    hide MulX;
    hide IsBasis;
  }

  lemma Row2ProductsA()
    ensures Chain(2, 0x80000000, 0x35d73a62, 0x28461564, 0x43eefc9f, 0xbf455269, 0x5edcdeb9, 0x65059450, 0x4e6f41a4, 0xe2ea32dc)
    ensures Chain(2, 0xe2ea32dc, 0xf5b95b32, 0x695a4c87, 0xf204502c, 0x9a4f01b6, 0x941a0916, 0x4303cb97, 0x4c3d3d65, 0xfe7740e6)
  {
    hide Mult;
    hide MulX;
    hide IsBasis;
  }

  lemma Row2ProductsB()
    ensures Chain(2, 0xfe7740e6, 0xf0cb95d2, 0xab4c722a, 0xba35e2e1, 0x99569602, 0x294060e6, 0xd65a1d78, 0x18103ff9, 0x78b57ca2)
    ensures Chain(2, 0x78b57ca2, 0x97b3a098, 0x30a8edff, 0x3fb4e611, 0x999dcda1, 0xd9dd2e27, 0x5918f954, 0x8ee73513, 0xf946610b)
  {
    hide Mult;
    hide MulX;
    hide IsBasis;
  }

  lemma Row2ProductsC()
    ensures Chain(2, 0xf946610b, 0xa5f4742d, 0x424b8555, 0xd017c143, 0xc274d1e2, 0x0280b04e, 0xd25bb5e0, 0x552a0918, 0xf5942afb)
    ensures Chain(2, 0xf5942afb, 0x55d7a3f8, 0xd1b533ee, 0x9fa8def5, 0x24c42589, 0x5988dbb3, 0xa7e1cab4, 0xebaee1b4, 0xa0a51f5f)
  {
    hide Mult;
    hide MulX;
    hide IsBasis;
  }

  lemma Row2ProductsD()
    ensures Chain(2, 0xa0a51f5f, 0xbd1a9096, 0x1ced05cc, 0x6748e206, 0x506431b0, 0x6c399e24, 0x30af367f, 0x129ee2f5, 0x8fd57416)
    ensures Chain(2, 0x8fd57416, 0x85ee5ed0, 0x97504a07, 0x52e710c7, 0x4ea3e89b, 0xde8567b5, 0xb5c84194, 0x80526793, 0x3c204f8f)
  {
    hide Mult;
    hide MulX;
    hide IsBasis;
  }

  lemma Row3ProductsA()
    ensures Chain(3, 0x80000000, 0x3c204f8f, 0x538586e3, 0x683988b2, 0x59726915, 0x30c6966d, 0x5be8b36e, 0x42c5623c, 0x734d5309)
    ensures Chain(3, 0x734d5309, 0x1084fed0, 0x68a5f0f9, 0x1573fe60, 0xdb1b3315, 0xe0a82539, 0xe5c304f7, 0xce8068d1, 0xbc1ac763)
  {
    hide Mult;
    hide MulX;
    hide IsBasis;
  }

  lemma Row3ProductsB()
    ensures Chain(3, 0xbc1ac763, 0x47514f16, 0xf7f919a7, 0x5005a217, 0x11b31f9d, 0x496f21b8, 0x0bc2a806, 0xbba39916, 0x5414bce3)
    ensures Chain(3, 0x5414bce3, 0x401f0313, 0xe0ee85d5, 0x4fb6f7ac, 0x54f2f77b, 0x738279cb, 0x6b645133, 0x05a44de1, 0x7d0722cc)
  {
    hide Mult;
    hide MulX;
    hide IsBasis;
  }

  lemma Row3ProductsC()
    ensures Chain(3, 0x7d0722cc, 0x8ca9c7c7, 0x50806311, 0x58ba16a0, 0xbae70d08, 0xde3a8229, 0x6652a6cc, 0x36b6490b, 0x238acb2b)
    ensures Chain(3, 0x238acb2b, 0xe3f9a08b, 0x23a7923f, 0xb0609b9b, 0xd2074e2b, 0x342f6e39, 0x5bcf2cf2, 0x8096907d, 0x546dfa6e)
  {
    hide Mult;
    hide MulX;
    hide IsBasis;
  }

  lemma Row3ProductsD()
    ensures Chain(3, 0x546dfa6e, 0x75337ed4, 0x9c1de396, 0x91e7afe7, 0x3f76a96c, 0x00032b5e, 0x1a2a93d0, 0x3b0c8728, 0xa3aa3946)
    ensures Chain(3, 0xa3aa3946, 0x9b170192, 0xcc33e9f6, 0x4152bdb8, 0xf054ca48, 0x0369fe6a, 0x6ec7bef8, 0x3fe8b9ff, 0xd289cabe)
  {
    hide Mult;
    hide MulX;
    hide IsBasis;
  }

  lemma Row4ProductsA()
    ensures Chain(4, 0x80000000, 0xd289cabe, 0xe94ca9bc, 0x6ac5538f, 0x05b74f3f, 0x9e0b2298, 0x14de47cd, 0x3a9fb07d, 0xa51e1f42)
    ensures Chain(4, 0xa51e1f42, 0xfe578179, 0x038d778c, 0x5fe3cf44, 0xb7c64e40, 0x20cbb8e3, 0x4f04f803, 0x56745358, 0x40000000)
  {
    hide Mult;
    hide MulX;
    hide IsBasis;
  }

  lemma Row4ProductsB()
    ensures Chain(4, 0x40000000, 0x6944e55f, 0x74a654de, 0xb79492bf, 0x802d9ce7, 0x4f05914c, 0x8899189e, 0x9fb9e346, 0x528f0fa1)
    ensures Chain(4, 0x528f0fa1, 0xfdddfbc4, 0x01c6bbc6, 0x2ff1e7a2, 0x5be32720, 0x9293e709, 0xa5744779, 0x2b3a29ac, 0x20000000)
  {
    hide Mult;
    hide MulX;
    hide IsBasis;
  }

  lemma Row4ProductsC()
    ensures Chain(4, 0x20000000, 0xb65449d7, 0x3a532a6f, 0xd93c7227, 0xc2e0f50b, 0x2782c8a6, 0x444c8c4f, 0x4fdcf1a3, 0xabb1bca8)
    ensures Chain(4, 0xabb1bca8, 0x7eeefde2, 0x00e35de3, 0x17f8f3d1, 0x2df19390, 0xcbbfc8fc, 0xd04c18c4, 0x159d14d6, 0x10000000)
  {
    hide Mult;
    hide MulX;
    hide IsBasis;
  }

  lemma Row4ProductsD()
    ensures Chain(4, 0x10000000, 0xd9dc1f93, 0x9fdfae4f, 0xee68026b, 0xe38641fd, 0x13c16453, 0xa0d07d5f, 0xa51843a9, 0x55d8de54)
    ensures Chain(4, 0x55d8de54, 0x3f777ef1, 0x82879589, 0x890a4290, 0x16f8c9c8, 0x65dfe47e, 0x68260c62, 0x0ace8a6b, 0x08000000)
  {
    hide Mult;
    hide MulX;
    hide IsBasis;
  }

  lemma LinePowers(i: nat, t: seq<bv32>, next: bv32, s: nat, e: nat)
    requires i < 5 && Unit(i) == XPow(s) && |t| == 8 && t[0] == XPow(e) && LineChained(i, t, next)
    ensures Powers(t, s, e)
    ensures next == XPow(e + 8 * s)
  {
    hide Mult;
    hide XPow;
    hide Times;
    ProductPowers(t, next, Unit(i), s, e);
  }

  lemma Row0Chained()
    ensures LineChained(0, L0, L1[0])
    ensures LineChained(0, L1, L2[0])
    ensures LineChained(0, L2, L3[0])
    ensures LineChained(0, L3, L4[0])
    ensures LineChained(0, L4, L5[0])
    ensures LineChained(0, L5, L6[0])
    ensures LineChained(0, L6, L7[0])
    ensures LineChained(0, L7, L8[1])
  {
    hide Chain;
    Row0ProductsA();
    Row0ProductsB();
    Row0ProductsC();
    Row0ProductsD();
  }

  lemma Row1Chained()
    ensures LineChained(1, L8, L9[0])
    ensures LineChained(1, L9, L10[0])
    ensures LineChained(1, L10, L11[0])
    ensures LineChained(1, L11, L12[0])
    ensures LineChained(1, L12, L13[0])
    ensures LineChained(1, L13, L14[0])
    ensures LineChained(1, L14, L15[0])
    ensures LineChained(1, L15, L16[1])
  {
    hide Chain;
    Row1ProductsA();
    Row1ProductsB();
    Row1ProductsC();
    Row1ProductsD();
  }

  lemma Row2Chained()
    ensures LineChained(2, L16, L17[0])
    ensures LineChained(2, L17, L18[0])
    ensures LineChained(2, L18, L19[0])
    ensures LineChained(2, L19, L20[0])
    ensures LineChained(2, L20, L21[0])
    ensures LineChained(2, L21, L22[0])
    ensures LineChained(2, L22, L23[0])
    ensures LineChained(2, L23, L24[1])
  {
    hide Chain;
    Row2ProductsA();
    Row2ProductsB();
    Row2ProductsC();
    Row2ProductsD();
  }

  lemma Row3Chained()
    ensures LineChained(3, L24, L25[0])
    ensures LineChained(3, L25, L26[0])
    ensures LineChained(3, L26, L27[0])
    ensures LineChained(3, L27, L28[0])
    ensures LineChained(3, L28, L29[0])
    ensures LineChained(3, L29, L30[0])
    ensures LineChained(3, L30, L31[0])
    ensures LineChained(3, L31, L32[1])
  {
    hide Chain;
    Row3ProductsA();
    Row3ProductsB();
    Row3ProductsC();
    Row3ProductsD();
  }

  lemma Row4Chained()
    ensures LineChained(4, L32, L33[0])
    ensures LineChained(4, L33, L34[0])
    ensures LineChained(4, L34, L35[0])
    ensures LineChained(4, L35, L36[0])
    ensures LineChained(4, L36, L37[0])
    ensures LineChained(4, L37, L38[0])
    ensures LineChained(4, L38, L39[0])
    ensures LineChained(4, L39, L40[1])
  {
    hide Chain;
    Row4ProductsA();
    Row4ProductsB();
    Row4ProductsC();
    Row4ProductsD();
  }

  lemma Row0Powers()
    ensures Powers(L0, RowStep(0), RowStep(0) * 0)
    ensures Powers(L1, RowStep(0), RowStep(0) * 8)
    ensures Powers(L2, RowStep(0), RowStep(0) * 16)
    ensures Powers(L3, RowStep(0), RowStep(0) * 24)
    ensures Powers(L4, RowStep(0), RowStep(0) * 32)
    ensures Powers(L5, RowStep(0), RowStep(0) * 40)
    ensures Powers(L6, RowStep(0), RowStep(0) * 48)
    ensures Powers(L7, RowStep(0), RowStep(0) * 56)
    ensures L8[1] == XPow(RowStep(1))
  {
    RowSteps();
    FewPowers();
    hide RowStep;
    hide XPow;
    hide LineChained;
    hide Powers;
    Row0Chained();
    var s := RowStep(0);
    LinePowers(0, L0, L1[0], s, s * 0);
    LinePowers(0, L1, L2[0], s, s * 8);
    LinePowers(0, L2, L3[0], s, s * 16);
    LinePowers(0, L3, L4[0], s, s * 24);
    LinePowers(0, L4, L5[0], s, s * 32);
    LinePowers(0, L5, L6[0], s, s * 40);
    LinePowers(0, L6, L7[0], s, s * 48);
    LinePowers(0, L7, L8[1], s, s * 56);
  }

  lemma Row1Powers()
    requires Unit(1) == XPow(RowStep(1))
    ensures Powers(L8, RowStep(1), RowStep(1) * 0)
    ensures Powers(L9, RowStep(1), RowStep(1) * 8)
    ensures Powers(L10, RowStep(1), RowStep(1) * 16)
    ensures Powers(L11, RowStep(1), RowStep(1) * 24)
    ensures Powers(L12, RowStep(1), RowStep(1) * 32)
    ensures Powers(L13, RowStep(1), RowStep(1) * 40)
    ensures Powers(L14, RowStep(1), RowStep(1) * 48)
    ensures Powers(L15, RowStep(1), RowStep(1) * 56)
    ensures L16[1] == XPow(RowStep(2))
  {
    RowSteps();
    FewPowers();
    hide RowStep;
    hide XPow;
    hide LineChained;
    hide Powers;
    Row1Chained();
    var s := RowStep(1);
    LinePowers(1, L8, L9[0], s, s * 0);
    LinePowers(1, L9, L10[0], s, s * 8);
    LinePowers(1, L10, L11[0], s, s * 16);
    LinePowers(1, L11, L12[0], s, s * 24);
    LinePowers(1, L12, L13[0], s, s * 32);
    LinePowers(1, L13, L14[0], s, s * 40);
    LinePowers(1, L14, L15[0], s, s * 48);
    LinePowers(1, L15, L16[1], s, s * 56);
  }

  lemma Row2Powers()
    requires Unit(2) == XPow(RowStep(2))
    ensures Powers(L16, RowStep(2), RowStep(2) * 0)
    ensures Powers(L17, RowStep(2), RowStep(2) * 8)
    ensures Powers(L18, RowStep(2), RowStep(2) * 16)
    ensures Powers(L19, RowStep(2), RowStep(2) * 24)
    ensures Powers(L20, RowStep(2), RowStep(2) * 32)
    ensures Powers(L21, RowStep(2), RowStep(2) * 40)
    ensures Powers(L22, RowStep(2), RowStep(2) * 48)
    ensures Powers(L23, RowStep(2), RowStep(2) * 56)
    ensures L24[1] == XPow(RowStep(3))
  {
    RowSteps();
    FewPowers();
    hide RowStep;
    hide XPow;
    hide LineChained;
    hide Powers;
    Row2Chained();
    var s := RowStep(2);
    LinePowers(2, L16, L17[0], s, s * 0);
    LinePowers(2, L17, L18[0], s, s * 8);
    LinePowers(2, L18, L19[0], s, s * 16);
    LinePowers(2, L19, L20[0], s, s * 24);
    LinePowers(2, L20, L21[0], s, s * 32);
    LinePowers(2, L21, L22[0], s, s * 40);
    LinePowers(2, L22, L23[0], s, s * 48);
    LinePowers(2, L23, L24[1], s, s * 56);
  }

  lemma Row3Powers()
    requires Unit(3) == XPow(RowStep(3))
    ensures Powers(L24, RowStep(3), RowStep(3) * 0)
    ensures Powers(L25, RowStep(3), RowStep(3) * 8)
    ensures Powers(L26, RowStep(3), RowStep(3) * 16)
    ensures Powers(L27, RowStep(3), RowStep(3) * 24)
    ensures Powers(L28, RowStep(3), RowStep(3) * 32)
    ensures Powers(L29, RowStep(3), RowStep(3) * 40)
    ensures Powers(L30, RowStep(3), RowStep(3) * 48)
    ensures Powers(L31, RowStep(3), RowStep(3) * 56)
    ensures L32[1] == XPow(RowStep(4))
  {
    RowSteps();
    FewPowers();
    hide RowStep;
    hide XPow;
    hide LineChained;
    hide Powers;
    Row3Chained();
    var s := RowStep(3);
    LinePowers(3, L24, L25[0], s, s * 0);
    LinePowers(3, L25, L26[0], s, s * 8);
    LinePowers(3, L26, L27[0], s, s * 16);
    LinePowers(3, L27, L28[0], s, s * 24);
    LinePowers(3, L28, L29[0], s, s * 32);
    LinePowers(3, L29, L30[0], s, s * 40);
    LinePowers(3, L30, L31[0], s, s * 48);
    LinePowers(3, L31, L32[1], s, s * 56);
  }

  lemma Row4Powers()
    requires Unit(4) == XPow(RowStep(4))
    ensures Powers(L32, RowStep(4), RowStep(4) * 0)
    ensures Powers(L33, RowStep(4), RowStep(4) * 8)
    ensures Powers(L34, RowStep(4), RowStep(4) * 16)
    ensures Powers(L35, RowStep(4), RowStep(4) * 24)
    ensures Powers(L36, RowStep(4), RowStep(4) * 32)
    ensures Powers(L37, RowStep(4), RowStep(4) * 40)
    ensures Powers(L38, RowStep(4), RowStep(4) * 48)
    ensures Powers(L39, RowStep(4), RowStep(4) * 56)
    ensures L40[1] == XPow(RowStep(5))
  {
    RowSteps();
    FewPowers();
    hide RowStep;
    hide XPow;
    hide LineChained;
    hide Powers;
    Row4Chained();
    var s := RowStep(4);
    LinePowers(4, L32, L33[0], s, s * 0);
    LinePowers(4, L33, L34[0], s, s * 8);
    LinePowers(4, L34, L35[0], s, s * 16);
    LinePowers(4, L35, L36[0], s, s * 24);
    LinePowers(4, L36, L37[0], s, s * 32);
    LinePowers(4, L37, L38[0], s, s * 40);
    LinePowers(4, L38, L39[0], s, s * 48);
    LinePowers(4, L39, L40[1], s, s * 56);
  }

  lemma LastRowPowers()
    requires L40[1] == XPow(RowStep(5))
    ensures Powers(L40, RowStep(5), 0)
  {
    hide RowStep;
    hide XPow;
    ShortRowPowers(L40, RowStep(5));
  }

  lemma AllLinePowers(k: nat)
    requires k <= 40
    ensures Powers(Line(k), RowStep(k / 8), RowStep(k / 8) * (8 * (k % 8)))
  {
    hide Powers;
    hide XPow;
    hide RowStep;
    Row0Powers();
    Row1Powers();
    Row2Powers();
    Row3Powers();
    Row4Powers();
    LastRowPowers();
  }

  // The literal table holds the powers it should.
  lemma TableIsPowerTable()
    ensures IsPowerTable(TABLE)
  {
    hide Line;
    hide IsPowerTable;
    hide Powers;
    hide RowStep;
    var lines := seq(41, k requires 0 <= k <= 40 => Line(k));
    forall k: nat | k <= 40 ensures Powers(lines[k], RowStep(k / 8), RowStep(k / 8) * (8 * (k % 8))) {
      AllLinePowers(k);
    }
    FromLines(TABLE, lines);
  }
}
