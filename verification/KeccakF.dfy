/**
  crypto/sha3/keccakf.go: the Keccak-f[1600] permutation, unrolled four rounds at a time and in
  place, against the step mappings of sections 3.2.1 to 3.2.5 and 3.3 of FIPS 202.
 */
module KeccakF {

  type Lane = bv64

  type Lanes = s: seq<Lane> | |s| == 25 witness seq(25, _ => 0)

  // ---------------------------------------------------------------------------
  // FIPS 202: lane (x, y) of a state is element x + 5y
  // ---------------------------------------------------------------------------

  function Xor(a: Lane, b: Lane): (r: Lane) { a ^ b }

  /** Rotation towards higher bit positions. */
  function Rot(v: Lane, n: nat): (r: Lane)
    requires n < 64
  {
    if n == 0 then v else (v << n) | (v >> (64 - n))
  }

  /** Coordinates count modulo 5. */
  function Mod5(n: nat): (m: nat) ensures m < 5 { n % 5 }

  /** Coordinates of the lane with index i. */
  function XOf(i: nat): (x: nat) ensures x < 5 { i % 5 }

  function YOf(i: nat): (y: nat)
    requires i < 25
    ensures y < 5
  {
    i / 5
  }

  function At(a: Lanes, x: nat, y: nat): (v: Lane)
    requires x < 5 && y < 5
  {
    a[x + 5 * y]
  }

  function Parity(a: Lanes, x: nat): (v: Lane)
    requires x < 5
  {
    Xor5(At(a, x, 0), At(a, x, 1), At(a, x, 2), At(a, x, 3), At(a, x, 4))
  }

  function Xor5(a: Lane, b: Lane, c: Lane, d: Lane, e: Lane): (r: Lane) { Xor(Xor(Xor(Xor(a, b), c), d), e) }

  /** Section 3.2.1 */
  function ThetaD(a: Lanes, x: nat): (v: Lane)
    requires x < 5
  {
    Xor(Parity(a, Mod5(x + 4)), Rot(Parity(a, Mod5(x + 1)), 1))
  }

  function Theta(a: Lanes): (r: Lanes)
  {
    seq(25, i requires 0 <= i < 25 => Xor(a[i], ThetaD(a, XOf(i))))
  }

  /** Section 3.2.2, step 3: the offset of the lane reached after t steps from (1, 0). */
  function RhoWalk(t: nat): (p: (nat, nat))
    ensures p.0 < 5 && p.1 < 5
  {
    if t == 0 then (1, 0)
    else var (x, y) := RhoWalk(t - 1); (y, Mod5(2 * x + 3 * y))
  }

  const OFFSETS: seq<nat> :=
    [ 0,  1, 62, 28, 27,
     36, 44,  6, 55, 20,
      3, 10, 43, 25, 39,
     41, 45, 15, 21,  8,
     18,  2, 61, 56, 14]

  function Offset(x: nat, y: nat): (n: nat)
    requires x < 5 && y < 5
    ensures n < 64
  {
    OFFSETS[x + 5 * y]
  }

  function Rho(a: Lanes): (r: Lanes)
  {
    seq(25, i requires 0 <= i < 25 => Rot(a[i], Offset(XOf(i), YOf(i))))
  }

  /** Section 3.2.3 */
  function Pi(a: Lanes): (r: Lanes)
  {
    seq(25, i requires 0 <= i < 25 => At(a, Mod5(XOf(i) + 3 * YOf(i)), XOf(i)))
  }

  /** w and not v; Go's w &^ v. */
  function AndNot(w: Lane, v: Lane): (r: Lane) { w & !v }

  /** Section 3.2.4 */
  function ChiLane(u: Lane, v: Lane, w: Lane): (r: Lane) { Xor(u, AndNot(w, v)) }

  function Chi(a: Lanes): (r: Lanes)
  {
    seq(25, i requires 0 <= i < 25 => ChiAt(a, XOf(i), YOf(i)))
  }

  function ChiAt(a: Lanes, x: nat, y: nat): (v: Lane)
    requires x < 5 && y < 5
  {
    ChiLane(At(a, x, y), At(a, Mod5(x + 1), y), At(a, Mod5(x + 2), y))
  }

  /** Section 3.2.5 */
  function Iota(a: Lanes, rc: Lane): (r: Lanes) { a[0 := Xor(a[0], rc)] }

  /** Section 3.3: Rnd */
  function Rnd(a: Lanes, rc: Lane): (r: Lanes)
  {
    Iota(Chi(Pi(Rho(Theta(a)))), rc)
  }

  /** Section 3.3: the first n rounds of KECCAK-p[1600, 24] with the given round constants. */
  function Rounds(a: Lanes, rcs: seq<Lane>): (r: Lanes)
  {
    if rcs == [] then a else Rnd(Rounds(a, rcs[..|rcs| - 1]), rcs[|rcs| - 1])
  }

  // ---------------------------------------------------------------------------
  // The round constants and offsets are those of the standard
  // ---------------------------------------------------------------------------

  /** Algorithm 5 of section 3.2.5: one step of the linear feedback shift register, on 8 bits (bit 0 first). */
  function Lfsr(r: bv8): (q: bv8)
  {
    if r & 0x80 == 0 then r << 1 else (r << 1) ^ 0x71
  }

  function LfsrAfter(t: nat): (r: bv8)
  {
    if t == 0 then 1 else Lfsr(LfsrAfter(t - 1))
  }

  type Schedule = s: seq<Lane> | |s| == 24 witness seq(24, _ => 0)

  const RC: Schedule :=
    [0x0000000000000001, 0x0000000000008082, 0x800000000000808A, 0x8000000080008000,
     0x000000000000808B, 0x0000000080000001, 0x8000000080008081, 0x8000000000008009,
     0x000000000000008A, 0x0000000000000088, 0x0000000080008009, 0x000000008000000A,
     0x000000008000808B, 0x800000000000008B, 0x8000000000008089, 0x8000000000008003,
     0x8000000000008002, 0x8000000000000080, 0x000000000000800A, 0x800000008000000A,
     0x8000000080008081, 0x8000000000008080, 0x0000000080000001, 0x8000000080008008]

  /** Bit 2^j - 1 of a round constant is rc(j + 7i), from the register state r = LfsrAfter(7i). */
  function RcWord(r: bv8): (w: Lane)
  {
    var r1 := Lfsr(r);
    var r2 := Lfsr(r1);
    var r3 := Lfsr(r2);
    var r4 := Lfsr(r3);
    var r5 := Lfsr(r4);
    var r6 := Lfsr(r5);
    RcBit(r, 0x1) | RcBit(r1, 0x2) | RcBit(r2, 0x8) | RcBit(r3, 0x80)
    | RcBit(r4, 0x8000) | RcBit(r5, 0x8000_0000) | RcBit(r6, 0x8000_0000_0000_0000)
  }

  function RcBit(r: bv8, mask: Lane): (w: Lane) { if r & 1 == 1 then mask else 0 }

  function Seven(r: bv8): (q: bv8) { Lfsr(Lfsr(Lfsr(Lfsr(Lfsr(Lfsr(Lfsr(r))))))) }

  lemma LfsrSeven(t: nat)
    ensures LfsrAfter(t + 7) == Seven(LfsrAfter(t))
  {
    hide Lfsr;
    assert LfsrAfter(t + 1) == Lfsr(LfsrAfter(t));
    assert LfsrAfter(t + 2) == Lfsr(LfsrAfter(t + 1));
    assert LfsrAfter(t + 3) == Lfsr(LfsrAfter(t + 2));
    assert LfsrAfter(t + 4) == Lfsr(LfsrAfter(t + 3));
    assert LfsrAfter(t + 5) == Lfsr(LfsrAfter(t + 4));
    assert LfsrAfter(t + 6) == Lfsr(LfsrAfter(t + 5));
  }

  /** The register, seven steps at a time. */
  lemma RegisterSteps()
    ensures Seven(0x01) == 0x80 && Seven(0x80) == 0xd8 && Seven(0xd8) == 0x1a && Seven(0x1a) == 0xdf && Seven(0xdf) == 0x09 && Seven(0x09) == 0x35
    ensures Seven(0x35) == 0x4f && Seven(0x4f) == 0xca && Seven(0xca) == 0x70 && Seven(0x70) == 0x41 && Seven(0x41) == 0xec && Seven(0xec) == 0xd5
    ensures Seven(0xd5) == 0xcd && Seven(0xcd) == 0x63 && Seven(0x63) == 0xab && Seven(0xab) == 0xaa && Seven(0xaa) == 0x2a && Seven(0x2a) == 0xf2
    ensures Seven(0xf2) == 0xe8 && Seven(0xe8) == 0x37 && Seven(0x37) == 0x3e && Seven(0x3e) == 0x0b && Seven(0x0b) == 0x44
  {}

  lemma RegisterStates()
    ensures LfsrAfter(0) == 0x01 && LfsrAfter(7) == 0x80 && LfsrAfter(14) == 0xd8 && LfsrAfter(21) == 0x1a && LfsrAfter(28) == 0xdf && LfsrAfter(35) == 0x09
    ensures LfsrAfter(42) == 0x35 && LfsrAfter(49) == 0x4f && LfsrAfter(56) == 0xca && LfsrAfter(63) == 0x70 && LfsrAfter(70) == 0x41 && LfsrAfter(77) == 0xec
    ensures LfsrAfter(84) == 0xd5 && LfsrAfter(91) == 0xcd && LfsrAfter(98) == 0x63 && LfsrAfter(105) == 0xab && LfsrAfter(112) == 0xaa && LfsrAfter(119) == 0x2a
    ensures LfsrAfter(126) == 0xf2 && LfsrAfter(133) == 0xe8 && LfsrAfter(140) == 0x37 && LfsrAfter(147) == 0x3e && LfsrAfter(154) == 0x0b && LfsrAfter(161) == 0x44
  {
    hide Lfsr, Seven;
    RegisterSteps();
    LfsrSeven(0); LfsrSeven(7); LfsrSeven(14); LfsrSeven(21); LfsrSeven(28); LfsrSeven(35);
    LfsrSeven(42); LfsrSeven(49); LfsrSeven(56); LfsrSeven(63); LfsrSeven(70); LfsrSeven(77);
    LfsrSeven(84); LfsrSeven(91); LfsrSeven(98); LfsrSeven(105); LfsrSeven(112); LfsrSeven(119);
    LfsrSeven(126); LfsrSeven(133); LfsrSeven(140); LfsrSeven(147); LfsrSeven(154);
  }

  lemma RegisterWords()
    ensures RcWord(0x01) == 0x0000000000000001 && RcWord(0x80) == 0x0000000000008082 && RcWord(0xd8) == 0x800000000000808a
    ensures RcWord(0x1a) == 0x8000000080008000 && RcWord(0xdf) == 0x000000000000808b && RcWord(0x09) == 0x0000000080000001
    ensures RcWord(0x35) == 0x8000000080008081 && RcWord(0x4f) == 0x8000000000008009 && RcWord(0xca) == 0x000000000000008a
    ensures RcWord(0x70) == 0x0000000000000088 && RcWord(0x41) == 0x0000000080008009 && RcWord(0xec) == 0x000000008000000a
    ensures RcWord(0xd5) == 0x000000008000808b && RcWord(0xcd) == 0x800000000000008b && RcWord(0x63) == 0x8000000000008089
    ensures RcWord(0xab) == 0x8000000000008003 && RcWord(0xaa) == 0x8000000000008002 && RcWord(0x2a) == 0x8000000000000080
    ensures RcWord(0xf2) == 0x000000000000800a && RcWord(0xe8) == 0x800000008000000a && RcWord(0x37) == 0x8000000080008081
    ensures RcWord(0x3e) == 0x8000000000008080 && RcWord(0x0b) == 0x0000000080000001 && RcWord(0x44) == 0x8000000080008008
  {}

  /** The table rc holds the round constants of algorithms 5 and 6. */
  lemma RoundConstants(i: nat)
    requires i < 24
    ensures RC[i] == RcWord(LfsrAfter(7 * i))
  {
    hide RcWord, LfsrAfter;
    RegisterStates();
    RegisterWords();
    assert i == 0 || i == 1 || i == 2 || i == 3 || i == 4 || i == 5 || i == 6 || i == 7 || i == 8 || i == 9 || i == 10 || i == 11
           || i == 12 || i == 13 || i == 14 || i == 15 || i == 16 || i == 17 || i == 18 || i == 19 || i == 20 || i == 21 || i == 22 || i == 23;
  }

  /** One step of the walk, with the quotient and remainder of the new row. */
  lemma WalkStep(t: nat, x: nat, y: nat, q: nat, z: nat)
    requires RhoWalk(t) == (x, y) && 2 * x + 3 * y == 5 * q + z && z < 5
    ensures RhoWalk(t + 1) == (y, z)
  {
    hide Mod5;
    Mod5Same(2 * x + 3 * y, z, q);
    Mod5Small(z);
  }

  lemma WalkBegins()
    ensures RhoWalk(0) == (1, 0)
  {}

  lemma WalkStart()
    ensures RhoWalk(0) == (1, 0) && RhoWalk(1) == (0, 2) && RhoWalk(2) == (2, 1) && RhoWalk(3) == (1, 2)
    ensures RhoWalk(4) == (2, 3) && RhoWalk(5) == (3, 3) && RhoWalk(6) == (3, 0) && RhoWalk(7) == (0, 1)
  {
    hide RhoWalk;
    WalkBegins();
    WalkStep(0, 1, 0, 0, 2);
    WalkStep(1, 0, 2, 1, 1);
    WalkStep(2, 2, 1, 1, 2);
    WalkStep(3, 1, 2, 1, 3);
    WalkStep(4, 2, 3, 2, 3);
    WalkStep(5, 3, 3, 3, 0);
    WalkStep(6, 3, 0, 1, 1);
  }

  lemma WalkMiddle()
    ensures RhoWalk(8) == (1, 3) && RhoWalk(9) == (3, 1) && RhoWalk(10) == (1, 4) && RhoWalk(11) == (4, 4)
    ensures RhoWalk(12) == (4, 0) && RhoWalk(13) == (0, 3) && RhoWalk(14) == (3, 4) && RhoWalk(15) == (4, 3)
  {
    hide RhoWalk;
    WalkStart();
    WalkStep(7, 0, 1, 0, 3);
    WalkStep(8, 1, 3, 2, 1);
    WalkStep(9, 3, 1, 1, 4);
    WalkStep(10, 1, 4, 2, 4);
    WalkStep(11, 4, 4, 4, 0);
    WalkStep(12, 4, 0, 1, 3);
    WalkStep(13, 0, 3, 1, 4);
    WalkStep(14, 3, 4, 3, 3);
  }

  lemma WalkEnd()
    ensures RhoWalk(16) == (3, 2) && RhoWalk(17) == (2, 2) && RhoWalk(18) == (2, 0) && RhoWalk(19) == (0, 4)
    ensures RhoWalk(20) == (4, 2) && RhoWalk(21) == (2, 4) && RhoWalk(22) == (4, 1) && RhoWalk(23) == (1, 1)
  {
    hide RhoWalk;
    WalkMiddle();
    WalkStep(15, 4, 3, 3, 2);
    WalkStep(16, 3, 2, 2, 2);
    WalkStep(17, 2, 2, 2, 0);
    WalkStep(18, 2, 0, 0, 4);
    WalkStep(19, 0, 4, 2, 2);
    WalkStep(20, 4, 2, 2, 4);
    WalkStep(21, 2, 4, 3, 1);
    WalkStep(22, 4, 1, 2, 1);
  }

  ghost predicate Triangular(t: nat)
  {
    Offset(RhoWalk(t).0, RhoWalk(t).1) == (t + 1) * (t + 2) / 2 % 64
  }

  lemma TriangularStart()
    ensures Triangular(0) && Triangular(1) && Triangular(2) && Triangular(3)
    ensures Triangular(4) && Triangular(5) && Triangular(6) && Triangular(7)
  {
    hide RhoWalk;
    WalkStart();
  }

  lemma TriangularMiddle()
    ensures Triangular(8) && Triangular(9) && Triangular(10) && Triangular(11)
    ensures Triangular(12) && Triangular(13) && Triangular(14) && Triangular(15)
  {
    hide RhoWalk;
    WalkMiddle();
  }

  lemma TriangularEnd()
    ensures Triangular(16) && Triangular(17) && Triangular(18) && Triangular(19)
    ensures Triangular(20) && Triangular(21) && Triangular(22) && Triangular(23)
  {
    hide RhoWalk;
    WalkEnd();
  }

  /** The rotation offsets are the triangular numbers of section 3.2.2, step 3, along its walk from (1, 0). */
  lemma RotationOffsets(i: nat)
    requires i < 24
    ensures Triangular(i) && Offset(0, 0) == 0
  {
    hide Triangular;
    TriangularStart();
    TriangularMiddle();
    TriangularEnd();
    assert i == 0 || i == 1 || i == 2 || i == 3 || i == 4 || i == 5 || i == 6 || i == 7 || i == 8 || i == 9 || i == 10 || i == 11
           || i == 12 || i == 13 || i == 14 || i == 15 || i == 16 || i == 17 || i == 18 || i == 19 || i == 20 || i == 21 || i == 22 || i == 23;
  }

  // ---------------------------------------------------------------------------
  // Layouts: where the unrolled code keeps lane (x, y) before its k-th round
  // ---------------------------------------------------------------------------

  /** Each round leaves lane (x, y) where lane (x, x + 2y) was; after four rounds every lane is home. */
  function Pos(k: nat, x: nat, y: nat): (p: nat)
    requires k <= 4 && x < 5 && y < 5
    ensures p < 25
  {
    var row := match k
      case 1 => x + 2 * y
      case 2 => 3 * x + 4 * y
      case 3 => 2 * x + 3 * y
      case _ => y;
    x + 5 * Mod5(row)
  }

  /** The state that the array holds in layout k. */
  function View(a: Lanes, k: nat): (v: Lanes)
    requires k <= 4
  {
    seq(25, i requires 0 <= i < 25 => a[Pos(k, XOf(i), YOf(i))])
  }

  /** The array positions of keccakf.go, one row per block of five lanes, in the order d0 to d4. */
  function Positions(k: nat): (t: seq<nat>)
    requires k < 4
    ensures |t| == 25
  {
    match k
    case 0 => [0, 6, 12, 18, 24, 10, 16, 22, 3, 9, 20, 1, 7, 13, 19, 5, 11, 17, 23, 4, 15, 21, 2, 8, 14]
    case 1 => [0, 16, 7, 23, 14, 20, 11, 2, 18, 9, 15, 6, 22, 13, 4, 10, 1, 17, 8, 24, 5, 21, 12, 3, 19]
    case 2 => [0, 11, 22, 8, 19, 15, 1, 12, 23, 9, 5, 16, 2, 13, 24, 20, 6, 17, 3, 14, 10, 21, 7, 18, 4]
    case _ => [0, 1, 2, 3, 4, 5, 6, 7, 8, 9, 10, 11, 12, 13, 14, 15, 16, 17, 18, 19, 20, 21, 22, 23, 24]
  }

  /** The rotation amounts of keccakf.go, in the same order; the same in all four rounds. */
  const AMOUNTS: seq<nat> :=
    [0, 44, 43, 21, 14, 3, 45, 61, 28, 20, 18, 1, 6, 25, 8, 36, 10, 15, 56, 27, 41, 2, 62, 55, 39]

  function Position(k: nat, x: nat, y: nat): (p: nat)
    requires k < 4 && x < 5 && y < 5
    ensures p == Pos(k + 1, x, y)
  {
    PositionsAreLayout(k, x, y);
    Positions(k)[5 * y + x]
  }

  function Amount(x: nat, y: nat): (n: nat)
    requires x < 5 && y < 5
    ensures n == Offset(x, Mod5(x + 2 * y))
  {
    AmountsAreOffsets(x, y);
    AMOUNTS[5 * y + x]
  }

  lemma AmountTable(x: nat, y: nat, r: nat)
    requires x < 5 && y < 5 && r < 5
    requires r == x + 2 * y || r + 5 == x + 2 * y || r + 10 == x + 2 * y
    ensures AMOUNTS[5 * y + x] == OFFSETS[x + 5 * r]
  {
    assert x == 0 || x == 1 || x == 2 || x == 3 || x == 4;
    assert y == 0 || y == 1 || y == 2 || y == 3 || y == 4;
  }

  lemma AmountsAreOffsets(x: nat, y: nat)
    requires x < 5 && y < 5
    ensures AMOUNTS[5 * y + x] == Offset(x, Mod5(x + 2 * y))
  {
    hide AMOUNTS, OFFSETS, Mod5;
    var q := Quotient(x + 2 * y);
    AmountTable(x, y, Mod5(x + 2 * y));
  }

  lemma Positions0(x: nat, y: nat)
    requires x < 5 && y < 5
    ensures Positions(0)[5 * y + x] == Pos(1, x, y)
  {
    assert x == 0 || x == 1 || x == 2 || x == 3 || x == 4;
    assert y == 0 || y == 1 || y == 2 || y == 3 || y == 4;
  }

  lemma Positions1(x: nat, y: nat)
    requires x < 5 && y < 5
    ensures Positions(1)[5 * y + x] == Pos(2, x, y)
  {
    assert x == 0 || x == 1 || x == 2 || x == 3 || x == 4;
    assert y == 0 || y == 1 || y == 2 || y == 3 || y == 4;
  }

  lemma Positions2(x: nat, y: nat)
    requires x < 5 && y < 5
    ensures Positions(2)[5 * y + x] == Pos(3, x, y)
  {
    assert x == 0 || x == 1 || x == 2 || x == 3 || x == 4;
    assert y == 0 || y == 1 || y == 2 || y == 3 || y == 4;
  }

  lemma Positions3(x: nat, y: nat)
    requires x < 5 && y < 5
    ensures Positions(3)[5 * y + x] == Pos(4, x, y)
  {
    assert x == 0 || x == 1 || x == 2 || x == 3 || x == 4;
    assert y == 0 || y == 1 || y == 2 || y == 3 || y == 4;
  }

  lemma Mod5Same(a: nat, b: nat, q: int)
    requires a == b + 5 * q
    ensures Mod5(a) == Mod5(b)
  {}

  /** Each layout is the previous one after the relabelling (x, y) to (x, x + 2y); the fourth is the first again. */
  lemma LayoutStep(k: nat, x: nat, y: nat)
    requires k < 4 && x < 5 && y < 5
    ensures Pos(k, x, Mod5(x + 2 * y)) == Pos(k + 1, x, y)
  {
    hide Mod5;
    var r := Mod5(x + 2 * y);
    var q: int := Quotient(x + 2 * y);
    Mod5Same(r, x + 2 * y, -q);
    Mod5Same(x + 2 * r, 3 * x + 4 * y, -2 * q);
    Mod5Same(3 * x + 4 * r, 2 * x + 3 * y, x + y - 4 * q);
    Mod5Same(2 * x + 3 * r, y, x + y - 3 * q);
  }

  lemma Quotient(n: nat) returns (q: nat)
    ensures n == 5 * q + Mod5(n)
  {
    q := n / 5;
  }

  /** The positions of round k are layout k at (x, x + 2y), which is layout k + 1 at (x, y). */
  lemma PositionsAreLayout(k: nat, x: nat, y: nat)
    requires k < 4 && x < 5 && y < 5
    ensures Positions(k)[5 * y + x] == Pos(k, x, Mod5(x + 2 * y)) == Pos(k + 1, x, y)
  {
    hide *;
    LayoutStep(k, x, y);
    if k == 0 { Positions0(x, y); }
    else if k == 1 { Positions1(x, y); }
    else if k == 2 { Positions2(x, y); }
    else { Positions3(x, y); }
  }

  lemma ViewAt(a: Lanes, k: nat, x: nat, y: nat)
    requires k <= 4 && x < 5 && y < 5
    ensures At(View(a, k), x, y) == a[Pos(k, x, y)]
  {
    hide Pos, XOf, YOf;
    Index(x, y);
  }

  lemma ViewHome(a: Lanes)
    ensures View(a, 0) == a && View(a, 4) == a
  {
    hide Pos, XOf, YOf;
    forall i | 0 <= i < 25
      ensures Pos(0, XOf(i), YOf(i)) == i && Pos(4, XOf(i), YOf(i)) == i
    {
      PosHome(i);
    }
  }

  lemma PosHome(i: nat)
    requires i < 25
    ensures Pos(0, XOf(i), YOf(i)) == i && Pos(4, XOf(i), YOf(i)) == i
  {}

  lemma Index(x: nat, y: nat)
    requires x < 5 && y < 5
    ensures x + 5 * y < 25 && XOf(x + 5 * y) == x && YOf(x + 5 * y) == y
  {}

  lemma XorCommutes(a: Lane, b: Lane)
    ensures Xor(a, b) == Xor(b, a)
  {}

  lemma XorSwap(r: Lane, a: Lane, b: Lane)
    ensures Xor(Xor(r, a), b) == Xor(Xor(r, b), a)
  {
    hide Xor;
    XorIs(r, a);
    XorIs(r, b);
    XorIs(Xor(r, a), b);
    XorIs(Xor(r, b), a);
  }

  lemma XorIs(a: Lane, b: Lane)
    ensures Xor(a, b) == a ^ b
  {}

  lemma Xor5Turn(a: Lane, b: Lane, c: Lane, d: Lane, e: Lane)
    ensures Xor5(b, c, d, e, a) == Xor5(a, b, c, d, e)
  {
    hide Xor;
    XorSwap(Xor(Xor(b, c), d), e, a);
    XorSwap(Xor(b, c), d, a);
    XorSwap(b, c, a);
    XorCommutes(b, a);
  }

  lemma Xor5Stride(a: Lane, b: Lane, c: Lane, d: Lane, e: Lane)
    ensures Xor5(a, c, e, b, d) == Xor5(a, b, c, d, e)
  {
    hide Xor;
    XorSwap(Xor(a, c), e, b);
    XorSwap(a, c, b);
    XorSwap(Xor(Xor(a, b), c), e, d);
  }

  function Row(v: seq<Lane>, i: nat): (l: Lane)
    requires |v| == 5
  {
    v[i % 5]
  }

  /** XOR of five lanes does not depend on where a walk through them starts or on its stride. */
  lemma XorWalk(v: seq<Lane>, s: nat, m: nat)
    requires |v| == 5 && s < 5 && m in {1, 2, 3, 4}
    ensures Xor5(Row(v, s), Row(v, s + m), Row(v, s + 2 * m), Row(v, s + 3 * m), Row(v, s + 4 * m))
         == Xor5(v[0], v[1], v[2], v[3], v[4])
  {
    hide Xor5, Row;
    var a, b, c, d, e := Row(v, s), Row(v, s + 1), Row(v, s + 2), Row(v, s + 3), Row(v, s + 4);
    RowWrap(v, s + 1);
    RowWrap(v, s + 2);
    RowWrap(v, s + 3);
    RowWrap(v, s + 4);
    RowWrap(v, s + 6);
    RowWrap(v, s + 7);
    RowWrap(v, s + 11);
    XorTurns(v, s);
    Xor5Stride(a, b, c, d, e);
    Xor5Stride(a, c, e, b, d);
    Xor5Stride(a, e, d, c, b);
  }

  lemma RowWrap(v: seq<Lane>, i: nat)
    requires |v| == 5
    ensures Row(v, i + 5) == Row(v, i)
  {}

  lemma XorTurns(v: seq<Lane>, s: nat)
    requires |v| == 5 && s < 5
    ensures Xor5(Row(v, s), Row(v, s + 1), Row(v, s + 2), Row(v, s + 3), Row(v, s + 4))
         == Xor5(v[0], v[1], v[2], v[3], v[4])
  {
    hide Xor5;
    if s > 0 {
      XorTurns(v, s - 1);
      Xor5Turn(Row(v, s - 1), Row(v, s), Row(v, s + 1), Row(v, s + 2), Row(v, s + 3));
    }
  }

  /** In layout k, the rows of column x are walked with a fixed stride. */
  function Stride(k: nat, x: nat): (p: (nat, nat))
    requires k < 4
    ensures p.0 < 5 && p.1 in {1, 2, 3, 4}
  {
    match k
    case 0 => (0, 1)
    case 1 => (Mod5(x), 2)
    case 2 => (Mod5(3 * x), 4)
    case _ => (Mod5(2 * x), 3)
  }

  lemma RowOrder(k: nat, x: nat, y: nat)
    requires k < 4 && x < 5 && y < 5
    ensures var (s, m) := Stride(k, x); Pos(k, x, y) == x + 5 * Mod5(s + m * y)
  {
    hide Mod5;
    var q1: int := Quotient(x);
    var q2: int := Quotient(3 * x);
    var q3: int := Quotient(2 * x);
    Mod5Same(Mod5(x) + 2 * y, x + 2 * y, -q1);
    Mod5Same(Mod5(3 * x) + 4 * y, 3 * x + 4 * y, -q2);
    Mod5Same(Mod5(2 * x) + 3 * y, 2 * x + 3 * y, -q3);
  }

  /** Columns are kept as sets, so their parity does not depend on the layout. */
  lemma ParityOfView(a: Lanes, k: nat, x: nat)
    requires k < 4 && x < 5
    ensures Parity(View(a, k), x) == Xor5(a[x], a[5 + x], a[10 + x], a[15 + x], a[20 + x])
  {
    hide Pos, View, Stride, Xor5, Row, At;
    var (s, m) := Stride(k, x);
    var v := [a[x], a[5 + x], a[10 + x], a[15 + x], a[20 + x]];
    forall y: nat | y < 5
      ensures At(View(a, k), x, y) == Row(v, s + m * y)
    {
      ViewAt(a, k, x, y);
      RowOrder(k, x, y);
      RowIs(a, x, s + m * y);
    }
    XorWalk(v, s, m);
    assert s + m * 0 == s && s + m * 1 == s + m;
  }

  lemma RowIs(a: Lanes, x: nat, i: nat)
    requires x < 5
    ensures Row([a[x], a[5 + x], a[10 + x], a[15 + x], a[20 + x]], i) == a[x + 5 * (i % 5)]
  {}

  // ---------------------------------------------------------------------------
  // One unrolled round
  // ---------------------------------------------------------------------------

  /** What theta, rho and pi put into lane (x, y), read off the state before the round. */
  function Moved(v: Lanes, x: nat, y: nat): (l: Lane)
    requires x < 5 && y < 5
  {
    var x0 := Mod5(x + 3 * y);
    Rot(Xor(At(v, x0, x), ThetaD(v, x0)), Offset(x0, x))
  }

  lemma ThetaAt(v: Lanes, x: nat, y: nat)
    requires x < 5 && y < 5
    ensures At(Theta(v), x, y) == Xor(At(v, x, y), ThetaD(v, x))
  {
    hide Xor, ThetaD, XOf, YOf, Mod5;
    Index(x, y);
  }

  lemma RhoAt(v: Lanes, x: nat, y: nat)
    requires x < 5 && y < 5
    ensures At(Rho(v), x, y) == Rot(At(v, x, y), Offset(x, y))
  {
    hide Rot, Offset, XOf, YOf, Mod5;
    Index(x, y);
  }

  lemma PiAt(v: Lanes, x: nat, y: nat)
    requires x < 5 && y < 5
    ensures At(Pi(v), x, y) == At(v, Mod5(x + 3 * y), x)
  {
    hide XOf, YOf, Mod5;
    Index(x, y);
  }

  lemma ChiLanes(v: Lanes, x: nat, y: nat)
    requires x < 5 && y < 5
    ensures At(Chi(v), x, y) == ChiAt(v, x, y)
  {
    hide ChiAt, XOf, YOf;
    Index(x, y);
  }

  lemma MovedIsPiRhoTheta(v: Lanes, x: nat, y: nat)
    requires x < 5 && y < 5
    ensures At(Pi(Rho(Theta(v))), x, y) == Moved(v, x, y)
  {
    hide Xor, Rot, ThetaD, Offset, Theta, Rho, Pi, At, Mod5;
    var x0 := Mod5(x + 3 * y);
    PiAt(Rho(Theta(v)), x, y);
    RhoAt(Theta(v), x0, x);
    ThetaAt(v, x0, x);
  }

  /** One lane after chi. */
  function Combine(v: Lanes, x: nat, y: nat): (l: Lane)
    requires x < 5 && y < 5
  {
    ChiLane(Moved(v, x, y), Moved(v, Mod5(x + 1), y), Moved(v, Mod5(x + 2), y))
  }

  lemma ChiIsCombine(v: Lanes, x: nat, y: nat)
    requires x < 5 && y < 5
    ensures At(Chi(Pi(Rho(Theta(v)))), x, y) == Combine(v, x, y)
  {
    hide Pi, Rho, Theta, Chi, Moved, ChiLane, At, Mod5;
    ChiLanes(Pi(Rho(Theta(v))), x, y);
    MovedIsPiRhoTheta(v, x, y);
    MovedIsPiRhoTheta(v, Mod5(x + 1), y);
    MovedIsPiRhoTheta(v, Mod5(x + 2), y);
  }

  lemma RndAt(v: Lanes, rc: Lane, x: nat, y: nat)
    requires x < 5 && y < 5
    ensures At(Rnd(v, rc), x, y) == if x == 0 && y == 0 then Xor(Combine(v, x, y), rc) else Combine(v, x, y)
  {
    hide Xor, Pi, Rho, Theta, Chi, Combine;
    ChiIsCombine(v, x, y);
  }

  /** Blocks below n hold lanes of the state after the round, the others what they held before it. */
  ghost predicate Done(a0: Lanes, a: Lanes, k: nat, rc: Lane, n: nat)
    requires k < 4
  {
    forall x: nat, y: nat | x < 5 && y < 5 ::
      a[Position(k, x, y)] == if y < n then At(Rnd(View(a0, k), rc), x, y) else a0[Position(k, x, y)]
  }

  /** The row that a position stands for, undoing Pos. */
  function RowAt(k: nat, p: nat): (y: nat)
    requires p < 25
  {
    match k
    case 1 => Mod5(3 * YOf(p) + 2 * XOf(p))
    case 2 => Mod5(4 * YOf(p) + 3 * XOf(p))
    case 3 => Mod5(2 * YOf(p) + XOf(p))
    case _ => YOf(p)
  }

  /** From row r of layout 1, 2 or 3 of column x, back to y. */
  lemma UndoRow(x: nat, y: nat, r: nat)
    requires x < 5 && y < 5
    ensures r == Mod5(x + 2 * y) ==> Mod5(3 * r + 2 * x) == y
    ensures r == Mod5(3 * x + 4 * y) ==> Mod5(4 * r + 3 * x) == y
    ensures r == Mod5(2 * x + 3 * y) ==> Mod5(2 * r + x) == y
  {
    hide Mod5;
    var q1 := Quotient(x + 2 * y);
    var q2 := Quotient(3 * x + 4 * y);
    var q3 := Quotient(2 * x + 3 * y);
    Mod5Small(y);
    if r == Mod5(x + 2 * y) { Mod5Same(3 * r + 2 * x, y, x + y - 3 * q1); }
    if r == Mod5(3 * x + 4 * y) { Mod5Same(4 * r + 3 * x, y, 3 * x + 3 * y - 4 * q2); }
    if r == Mod5(2 * x + 3 * y) { Mod5Same(2 * r + x, y, x + y - 2 * q3); }
  }

  lemma PosInverse(k: nat, x: nat, y: nat)
    requires k <= 4 && x < 5 && y < 5
    ensures XOf(Pos(k, x, y)) == x && RowAt(k, Pos(k, x, y)) == y
  {
    hide Mod5, XOf, YOf;
    var row := match k
      case 1 => x + 2 * y
      case 2 => 3 * x + 4 * y
      case 3 => 2 * x + 3 * y
      case _ => y;
    Mod5Small(y);
    Index(x, Mod5(row));
    UndoRow(x, y, Mod5(row));
  }

  lemma Mod5Small(y: nat)
    requires y < 5
    ensures Mod5(y) == y
  {}

  /** The parity of array column x, whatever the layout. */
  function Column(a: Lanes, x: nat): (l: Lane)
    requires x < 5
  {
    Xor5(a[x], a[5 + x], a[10 + x], a[15 + x], a[20 + x])
  }

  lemma ColumnWord(a: Lanes, k: nat, x: nat)
    requires k < 4 && x < 5
    ensures ThetaD(View(a, k), x) == Xor(Column(a, Mod5(x + 4)), Rot(Column(a, Mod5(x + 1)), 1))
  {
    hide Xor, Rot, Xor5, View, Parity, Mod5;
    ParityOfView(a, k, Mod5(x + 4));
    ParityOfView(a, k, Mod5(x + 1));
  }

  /** Theta's column words d0 to d4, from the array in whatever layout it is. */
  method ColumnWords(a: array<Lane>) returns (d: seq<Lane>)
    requires a.Length == 25
    ensures |d| == 5
    ensures forall k: nat, x: nat | k < 4 && x < 5 :: d[x] == ThetaD(View(a[..], k), x)
  {
    hide Xor, Rot, Xor5, View, ThetaD, XOf, YOf, Mod5;
    var bc0 := Xor5(a[0], a[5], a[10], a[15], a[20]);
    var bc1 := Xor5(a[1], a[6], a[11], a[16], a[21]);
    var bc2 := Xor5(a[2], a[7], a[12], a[17], a[22]);
    var bc3 := Xor5(a[3], a[8], a[13], a[18], a[23]);
    var bc4 := Xor5(a[4], a[9], a[14], a[19], a[24]);
    d := [Xor(bc4, Rot(bc1, 1)), Xor(bc0, Rot(bc2, 1)), Xor(bc1, Rot(bc3, 1)), Xor(bc2, Rot(bc4, 1)), Xor(bc3, Rot(bc0, 1))];
    forall k: nat, x: nat | k < 4 && x < 5
      ensures d[x] == ThetaD(View(a[..], k), x)
    {
      ColumnWordTable(a[..], k);
      Below5(x);
    }
  }

  lemma Below5(x: nat)
    requires x < 5
    ensures x == 0 || x == 1 || x == 2 || x == 3 || x == 4
  {}

  lemma ColumnWordTable(a: Lanes, k: nat)
    requires k < 4
    ensures ThetaD(View(a, k), 0) == Xor(Column(a, 4), Rot(Column(a, 1), 1))
    ensures ThetaD(View(a, k), 1) == Xor(Column(a, 0), Rot(Column(a, 2), 1))
    ensures ThetaD(View(a, k), 2) == Xor(Column(a, 1), Rot(Column(a, 3), 1))
    ensures ThetaD(View(a, k), 3) == Xor(Column(a, 2), Rot(Column(a, 4), 1))
    ensures ThetaD(View(a, k), 4) == Xor(Column(a, 3), Rot(Column(a, 0), 1))
  {
    hide Xor, Rot, View, ThetaD, Column;
    ColumnWord(a, k, 0);
    ColumnWord(a, k, 1);
    ColumnWord(a, k, 2);
    ColumnWord(a, k, 3);
    ColumnWord(a, k, 4);
  }

  // ---------------------------------------------------------------------------
  // The permutation
  // ---------------------------------------------------------------------------

  /** The word of column x in block y, rotated: what goes into bc number x + 2y. */
  function Word(a: Lanes, d: seq<Lane>, k: nat, x: nat, y: nat): (l: Lane)
    requires |d| == 5 && k < 4 && x < 5 && y < 5
  {
    Rot(Xor(a[Position(k, x, y)], d[x]), Amount(x, y))
  }

  /** Before block y has run, its words are those of theta, rho and pi on the state before the round. */
  lemma WordIsMoved(a0: Lanes, a: Lanes, d: seq<Lane>, k: nat, rc: Lane, x: nat, y: nat)
    requires |d| == 5 && k < 4 && x < 5 && y < 5
    requires forall i: nat | i < 5 :: d[i] == ThetaD(View(a0, k), i)
    requires Done(a0, a, k, rc, y)
    ensures Word(a, d, k, Mod5(x + 3 * y), y) == Moved(View(a0, k), x, y)
  {
    hide Position, Amount, Pos, Offset, Mod5, Rot, Xor, ThetaD, View, At, Rnd;
    var x0 := Mod5(x + 3 * y);
    BackToX(x, y);
    LayoutStep(k, x0, y);
    ViewAt(a0, k, x0, x);
    assert a[Position(k, x0, y)] == a0[Position(k, x0, y)];
    assert d[x0] == ThetaD(View(a0, k), x0);
  }

  lemma BackToX(x: nat, y: nat)
    requires x < 5 && y < 5
    ensures Mod5(Mod5(x + 3 * y) + 2 * y) == x
  {
    hide Mod5;
    var q: int := Quotient(x + 3 * y);
    Mod5Small(x);
    Mod5Same(Mod5(x + 3 * y) + 2 * y, x, y - q);
  }

  /** What block y stores for its lane x. */
  function Stored(bc: seq<Lane>, x: nat, y: nat, rc: Lane): (l: Lane)
    requires |bc| == 5 && x < 5
  {
    var v := Xor(bc[x], AndNot(bc[Mod5(x + 2)], bc[Mod5(x + 1)]));
    if x == 0 && y == 0 then Xor(v, rc) else v
  }

  lemma StoredIsRnd(v: Lanes, bc: seq<Lane>, x: nat, y: nat, rc: Lane)
    requires |bc| == 5 && x < 5 && y < 5
    requires forall i: nat | i < 5 :: bc[i] == Moved(v, i, y)
    ensures Stored(bc, x, y, rc) == At(Rnd(v, rc), x, y)
  {
    hide Mod5, Xor, AndNot, Moved, Rnd, At;
    RndAt(v, rc, x, y);
  }

  lemma DoneNext(a0: Lanes, a: Lanes, a': Lanes, k: nat, rc: Lane, y: nat)
    requires k < 4 && y < 5 && Done(a0, a, k, rc, y)
    requires forall x: nat | x < 5 :: a'[Position(k, x, y)] == At(Rnd(View(a0, k), rc), x, y)
    requires forall p: nat | p < 25 && RowAt(k + 1, p) != y :: a'[p] == a[p]
    ensures Done(a0, a', k, rc, y + 1)
  {
    hide Pos, Position, At, Rnd, View, RowAt;
    forall x': nat, y': nat | x' < 5 && y' < 5
      ensures a'[Position(k, x', y')]
           == if y' < y + 1 then At(Rnd(View(a0, k), rc), x', y') else a0[Position(k, x', y')]
    {
      PosInverse(k + 1, x', y');
      assert a[Position(k, x', y')]
          == if y' < y then At(Rnd(View(a0, k), rc), x', y') else a0[Position(k, x', y')];
    }
  }

  /** bc0 to bc4 of block y. */
  function BlockWords(a: Lanes, d: seq<Lane>, k: nat, y: nat): (bc: seq<Lane>)
    requires |d| == 5 && k < 4 && y < 5
    ensures |bc| == 5
  {
    seq(5, x requires 0 <= x < 5 => Word(a, d, k, Mod5(x + 3 * y), y))
  }

  lemma BlockResult(a0: Lanes, a: Lanes, d: seq<Lane>, k: nat, rc: Lane, x: nat, y: nat)
    requires |d| == 5 && k < 4 && x < 5 && y < 5
    requires forall i: nat | i < 5 :: d[i] == ThetaD(View(a0, k), i)
    requires Done(a0, a, k, rc, y)
    ensures Stored(BlockWords(a, d, k, y), x, y, rc) == At(Rnd(View(a0, k), rc), x, y)
  {
    hide Done, Word, Stored, ThetaD, View, Moved, At, Rnd, Mod5;
    var bc := BlockWords(a, d, k, y);
    forall i: nat | i < 5
      ensures bc[i] == Moved(View(a0, k), i, y)
    {
      WordIsMoved(a0, a, d, k, rc, i, y);
    }
    StoredIsRnd(View(a0, k), bc, x, y, rc);
  }

  /** Overwrites the five lanes of block y. */
  method Store(a: array<Lane>, k: nat, y: nat, bc: seq<Lane>, rc: Lane)
    requires a.Length == 25 && k < 4 && y < 5 && |bc| == 5
    modifies a
    ensures forall x: nat | x < 5 :: a[Position(k, x, y)] == Stored(bc, x, y, rc)
    ensures forall p: nat | p < 25 && RowAt(k + 1, p) != y :: a[p] == old(a[p])
  {
    hide Stored, RowAt, XOf, Position, Pos;
    forall x: nat | x < 5
      ensures RowAt(k + 1, Position(k, x, y)) == y && XOf(Position(k, x, y)) == x
    {
      PosInverse(k + 1, x, y);
    }
    forall x: nat | x < 5 {
      a[Position(k, x, y)] := Stored(bc, x, y, rc);
    }
  }

  /**
    Block y of round k: five lanes are read, rotated and combined, and the results overwrite the
    same five array elements.
   */
  method Block(a: array<Lane>, k: nat, y: nat, d: seq<Lane>, rc: Lane, ghost a0: Lanes)
    requires a.Length == 25 && k < 4 && y < 5 && |d| == 5
    requires forall x: nat | x < 5 :: d[x] == ThetaD(View(a0, k), x)
    requires Done(a0, a[..], k, rc, y)
    modifies a
    ensures Done(a0, a[..], k, rc, y + 1)
  {
    hide Done, Stored, ThetaD, View, Pos, Rnd, Position, At, RowAt, BlockWords;
    ghost var was := a[..];
    var bc := BlockWords(a[..], d, k, y);
    Store(a, k, y, bc, rc);
    forall x: nat | x < 5
      ensures a[Position(k, x, y)] == At(Rnd(View(a0, k), rc), x, y)
    {
      BlockResult(a0, was, d, k, rc, x, y);
    }
    DoneNext(a0, was, a[..], k, rc, y);
  }

  /** One unrolled round: the array goes from layout k to layout k + 1 and its state through Rnd. */
  method Round(a: array<Lane>, k: nat, rc: Lane)
    requires a.Length == 25 && k < 4
    modifies a
    ensures View(a[..], k + 1) == Rnd(View(old(a[..]), k), rc)
  {
    hide Done, ThetaD, View, Rnd;
    ghost var a0 := a[..];
    var d := ColumnWords(a);
    assert a[..] == a0;
    NothingDone(a0, k, rc);
    Block(a, k, 0, d, rc, a0);
    Block(a, k, 1, d, rc, a0);
    Block(a, k, 2, d, rc, a0);
    Block(a, k, 3, d, rc, a0);
    Block(a, k, 4, d, rc, a0);
    AllDone(a0, a[..], k, rc);
  }

  lemma NothingDone(a: Lanes, k: nat, rc: Lane)
    requires k < 4
    ensures Done(a, a, k, rc, 0)
  {}

  lemma AllDone(a0: Lanes, a: Lanes, k: nat, rc: Lane)
    requires k < 4 && Done(a0, a, k, rc, 5)
    ensures View(a, k + 1) == Rnd(View(a0, k), rc)
  {
    hide Pos, Position, Rnd, XOf, YOf;
    var v, r := View(a, k + 1), Rnd(View(a0, k), rc);
    forall i: nat | i < 25
      ensures v[i] == r[i]
    {
      var x, y := XOf(i), YOf(i);
      IndexOf(i);
      assert a[Position(k, x, y)] == At(r, x, y);
    }
  }

  lemma IndexOf(i: nat)
    requires i < 25
    ensures XOf(i) + 5 * YOf(i) == i
  {}

  /** The permutation of section 3.3: all 24 rounds with the standard's constants. */
  function Permute(a: Lanes): (r: Lanes)
  {
    Rounds(a, RC)
  }

  /**
    keccakF1600: six turns of four unrolled rounds, in place. The array never leaves its lanes
    home except inside a turn, and ends up holding the permuted state.
   */
  method KeccakF1600(a: array<Lane>)
    requires a.Length == 25
    modifies a
    ensures a[..] == Permute(old(a[..]))
  {
    hide Rnd, View, RC, Rounds;
    ghost var a0 := a[..];
    RoundsNone(a0);
    var i := 0;
    assert RC[..0] == [];
    while i < 24
      invariant 0 <= i <= 24 && i % 4 == 0
      invariant a[..] == Rounds(a0, RC[..i])
    {
      ghost var s := a[..];
      ViewHome(s);
      Round(a, 0, RC[i]);
      Round(a, 1, RC[i + 1]);
      Round(a, 2, RC[i + 2]);
      Round(a, 3, RC[i + 3]);
      ViewHome(a[..]);
      FourRounds(a0, i);
      i := i + 4;
    }
    assert RC[..24] == RC;
  }

  lemma RoundsNone(a: Lanes)
    ensures Rounds(a, []) == a
  {}

  lemma FourRounds(a: Lanes, i: nat)
    requires i + 4 <= 24
    ensures Rounds(a, RC[..i + 4])
         == Rnd(Rnd(Rnd(Rnd(Rounds(a, RC[..i]), RC[i]), RC[i + 1]), RC[i + 2]), RC[i + 3])
  {
    hide Rnd, RC, Rounds;
    RoundsSnoc(a, i);
    RoundsSnoc(a, i + 1);
    RoundsSnoc(a, i + 2);
    RoundsSnoc(a, i + 3);
  }

  lemma RoundsSnoc(a: Lanes, i: nat)
    requires i < 24
    ensures Rounds(a, RC[..i + 1]) == Rnd(Rounds(a, RC[..i]), RC[i])
  {
    hide Rnd, RC;
    assert RC[..i + 1][..i] == RC[..i];
  }
}
