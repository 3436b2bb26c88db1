/**
  The step mappings of KeccakF are those of sections 3.2.1 to 3.2.5 of FIPS 202, bit by bit. Bit z of
  lane (x, y) is A[x, y, z] of the standard; z counts modulo 64, as 6-bit numbers do.
 */
module KeccakBits {
  import opened KeccakF

  predicate Bit(l: Lane, z: bv6)
  {
    (l >> (z as bv64)) & 1 == 1
  }

  /** A[x, y, z] */
  predicate A(a: Lanes, x: nat, y: nat, z: bv6)
    requires x < 5 && y < 5
  {
    Bit(a[x + 5 * y], z)
  }

  /** C[x, z]: the parity of a column. */
  predicate C(a: Lanes, x: nat, z: bv6)
    requires x < 5
  {
    (((A(a, x, 0, z) != A(a, x, 1, z)) != A(a, x, 2, z)) != A(a, x, 3, z)) != A(a, x, 4, z)
  }

  // ---------------------------------------------------------------------------
  // Rotations
  // ---------------------------------------------------------------------------

  /** The bit position n below z. */
  function Below(z: bv6, n: nat): (b: bv6)
    requires n < 64
  {
    z - (n as bv6)
  }

  lemma Rot1(l: Lane, z: bv6)
    ensures Bit(Rot(l, 1), z) == Bit(l, Below(z, 1))
  {
    assert Below(z, 1) == z - 1;
  }

  lemma Rot2(l: Lane, z: bv6)
    ensures Bit(Rot(l, 2), z) == Bit(l, Below(z, 2))
  {
    assert Below(z, 2) == z - 2;
  }

  lemma Rot3(l: Lane, z: bv6)
    ensures Bit(Rot(l, 3), z) == Bit(l, Below(z, 3))
  {
    assert Below(z, 3) == z - 3;
  }

  lemma Rot6(l: Lane, z: bv6)
    ensures Bit(Rot(l, 6), z) == Bit(l, Below(z, 6))
  {
    assert Below(z, 6) == z - 6;
  }

  lemma Rot8(l: Lane, z: bv6)
    ensures Bit(Rot(l, 8), z) == Bit(l, Below(z, 8))
  {
    assert Below(z, 8) == z - 8;
  }

  lemma Rot10(l: Lane, z: bv6)
    ensures Bit(Rot(l, 10), z) == Bit(l, Below(z, 10))
  {
    assert Below(z, 10) == z - 10;
  }

  lemma Rot14(l: Lane, z: bv6)
    ensures Bit(Rot(l, 14), z) == Bit(l, Below(z, 14))
  {
    assert Below(z, 14) == z - 14;
  }

  lemma Rot15(l: Lane, z: bv6)
    ensures Bit(Rot(l, 15), z) == Bit(l, Below(z, 15))
  {
    assert Below(z, 15) == z - 15;
  }

  lemma Rot18(l: Lane, z: bv6)
    ensures Bit(Rot(l, 18), z) == Bit(l, Below(z, 18))
  {
    assert Below(z, 18) == z - 18;
  }

  lemma Rot20(l: Lane, z: bv6)
    ensures Bit(Rot(l, 20), z) == Bit(l, Below(z, 20))
  {
    assert Below(z, 20) == z - 20;
  }

  lemma Rot21(l: Lane, z: bv6)
    ensures Bit(Rot(l, 21), z) == Bit(l, Below(z, 21))
  {
    assert Below(z, 21) == z - 21;
  }

  lemma Rot25(l: Lane, z: bv6)
    ensures Bit(Rot(l, 25), z) == Bit(l, Below(z, 25))
  {
    assert Below(z, 25) == z - 25;
  }

  lemma Rot27(l: Lane, z: bv6)
    ensures Bit(Rot(l, 27), z) == Bit(l, Below(z, 27))
  {
    assert Below(z, 27) == z - 27;
  }

  lemma Rot28(l: Lane, z: bv6)
    ensures Bit(Rot(l, 28), z) == Bit(l, Below(z, 28))
  {
    assert Below(z, 28) == z - 28;
  }

  lemma Rot36(l: Lane, z: bv6)
    ensures Bit(Rot(l, 36), z) == Bit(l, Below(z, 36))
  {
    hide Bit;
    assert Rot(l, 36) == Rot(Rot(l, 18), 18);
    Rot18(Rot(l, 18), z);
    Rot18(l, Below(z, 18));
  }

  lemma Rot39(l: Lane, z: bv6)
    ensures Bit(Rot(l, 39), z) == Bit(l, Below(z, 39))
  {
    hide Bit;
    assert Rot(l, 39) == Rot(Rot(l, 25), 14);
    Rot14(Rot(l, 25), z);
    Rot25(l, Below(z, 14));
  }

  lemma Rot41(l: Lane, z: bv6)
    ensures Bit(Rot(l, 41), z) == Bit(l, Below(z, 41))
  {
    hide Bit;
    assert Rot(l, 41) == Rot(Rot(l, 21), 20);
    Rot20(Rot(l, 21), z);
    Rot21(l, Below(z, 20));
  }

  lemma Rot43(l: Lane, z: bv6)
    ensures Bit(Rot(l, 43), z) == Bit(l, Below(z, 43))
  {
    assert Below(z, 43) == z - 43;
  }

  lemma Rot44(l: Lane, z: bv6)
    ensures Bit(Rot(l, 44), z) == Bit(l, Below(z, 44))
  {
    assert Below(z, 44) == z - 44;
  }

  lemma Rot45(l: Lane, z: bv6)
    ensures Bit(Rot(l, 45), z) == Bit(l, Below(z, 45))
  {
    assert Below(z, 45) == z - 45;
  }

  lemma Rot55(l: Lane, z: bv6)
    ensures Bit(Rot(l, 55), z) == Bit(l, Below(z, 55))
  {
    hide Bit;
    assert Rot(l, 55) == Rot(Rot(l, 45), 10);
    Rot10(Rot(l, 45), z);
    Rot45(l, Below(z, 10));
  }

  lemma Rot56(l: Lane, z: bv6)
    ensures Bit(Rot(l, 56), z) == Bit(l, Below(z, 56))
  {
    hide Bit;
    assert Rot(l, 56) == Rot(Rot(l, 28), 28);
    Rot28(Rot(l, 28), z);
    Rot28(l, Below(z, 28));
  }

  lemma Rot61(l: Lane, z: bv6)
    ensures Bit(Rot(l, 61), z) == Bit(l, Below(z, 61))
  {
    hide Bit;
    assert Rot(l, 61) == Rot(Rot(l, 43), 18);
    Rot18(Rot(l, 43), z);
    Rot43(l, Below(z, 18));
  }

  lemma Rot62(l: Lane, z: bv6)
    ensures Bit(Rot(l, 62), z) == Bit(l, Below(z, 62))
  {
    hide Bit;
    assert Rot(l, 62) == Rot(Rot(l, 44), 18);
    Rot18(Rot(l, 44), z);
    Rot44(l, Below(z, 18));
  }

  /** A rotation by n, for every amount in use, moves bit z - n to bit z, that is, bit z to bit z + n. */
  lemma RotBit(l: Lane, n: nat, z: bv6)
    requires n in OFFSETS
    ensures n < 64 && Bit(Rot(l, n), z) == Bit(l, Below(z, n))
  {
    hide Bit, Rot, Below;
    RotNone(l, z);
    if n == 0 {}
    else if n == 1 { Rot1(l, z); }
    else if n == 2 { Rot2(l, z); }
    else if n == 3 { Rot3(l, z); }
    else if n == 6 { Rot6(l, z); }
    else if n == 8 { Rot8(l, z); }
    else if n == 10 { Rot10(l, z); }
    else if n == 14 { Rot14(l, z); }
    else if n == 15 { Rot15(l, z); }
    else if n == 18 { Rot18(l, z); }
    else if n == 20 { Rot20(l, z); }
    else if n == 21 { Rot21(l, z); }
    else if n == 25 { Rot25(l, z); }
    else if n == 27 { Rot27(l, z); }
    else if n == 28 { Rot28(l, z); }
    else if n == 36 { Rot36(l, z); }
    else if n == 39 { Rot39(l, z); }
    else if n == 41 { Rot41(l, z); }
    else if n == 43 { Rot43(l, z); }
    else if n == 44 { Rot44(l, z); }
    else if n == 45 { Rot45(l, z); }
    else if n == 55 { Rot55(l, z); }
    else if n == 56 { Rot56(l, z); }
    else if n == 61 { Rot61(l, z); }
    else if n == 62 { Rot62(l, z); }
  }

  lemma RotNone(l: Lane, z: bv6)
    ensures Rot(l, 0) == l && Below(z, 0) == z
  {}

  // ---------------------------------------------------------------------------
  // Exclusive or, and-not
  // ---------------------------------------------------------------------------

  predicate Low(l: Lane) { l & 1 == 1 }

  function Down1(l: Lane): (r: Lane) { l >> 1 }
  function Down2(l: Lane): (r: Lane) { l >> 2 }
  function Down4(l: Lane): (r: Lane) { l >> 4 }
  function Down8(l: Lane): (r: Lane) { l >> 8 }
  function Down16(l: Lane): (r: Lane) { l >> 16 }
  function Down32(l: Lane): (r: Lane) { l >> 32 }

  /** l shifted down by 2^i. */
  function Halved(l: Lane, i: nat): (r: Lane)
    requires i < 6
  {
    match i
    case 0 => Down1(l)
    case 1 => Down2(l)
    case 2 => Down4(l)
    case 3 => Down8(l)
    case 4 => Down16(l)
    case _ => Down32(l)
  }

  /** Binary digit i of z. */
  predicate Digit(z: bv6, i: nat)
    requires i < 6
  {
    match i
    case 0 => z & 1 != 0
    case 1 => z & 2 != 0
    case 2 => z & 4 != 0
    case 3 => z & 8 != 0
    case 4 => z & 16 != 0
    case _ => z & 32 != 0
  }

  function Stage(l: Lane, z: bv6, i: nat): (r: Lane)
    requires i < 6
  {
    if Digit(z, i) then Halved(l, i) else l
  }

  /** A shift by z, one binary digit of z at a time. */
  lemma Staged(l: Lane, z: bv6)
    ensures Bit(l, z) == Low(Stage(Stage(Stage(Stage(Stage(Stage(l, z, 5), z, 4), z, 3), z, 2), z, 1), z, 0))
  {}

  lemma Down1Xor(k: Lane, l: Lane) ensures Down1(Xor(k, l)) == Xor(Down1(k), Down1(l)) {}

  lemma Down1AndNot(k: Lane, l: Lane) ensures Down1(AndNot(k, l)) == AndNot(Down1(k), Down1(l)) {}

  lemma Down2Xor(k: Lane, l: Lane) ensures Down2(Xor(k, l)) == Xor(Down2(k), Down2(l)) {}

  lemma Down2AndNot(k: Lane, l: Lane) ensures Down2(AndNot(k, l)) == AndNot(Down2(k), Down2(l)) {}

  lemma Down4Xor(k: Lane, l: Lane) ensures Down4(Xor(k, l)) == Xor(Down4(k), Down4(l)) {}

  lemma Down4AndNot(k: Lane, l: Lane) ensures Down4(AndNot(k, l)) == AndNot(Down4(k), Down4(l)) {}

  lemma Down8Xor(k: Lane, l: Lane) ensures Down8(Xor(k, l)) == Xor(Down8(k), Down8(l)) {}

  lemma Down8AndNot(k: Lane, l: Lane) ensures Down8(AndNot(k, l)) == AndNot(Down8(k), Down8(l)) {}

  lemma Down16Xor(k: Lane, l: Lane) ensures Down16(Xor(k, l)) == Xor(Down16(k), Down16(l)) {}

  lemma Down16AndNot(k: Lane, l: Lane) ensures Down16(AndNot(k, l)) == AndNot(Down16(k), Down16(l)) {}

  lemma Down32Xor(k: Lane, l: Lane) ensures Down32(Xor(k, l)) == Xor(Down32(k), Down32(l)) {}

  lemma Down32AndNot(k: Lane, l: Lane) ensures Down32(AndNot(k, l)) == AndNot(Down32(k), Down32(l)) {}

  lemma HalvedXor(k: Lane, l: Lane, i: nat)
    requires i < 6
    ensures Halved(Xor(k, l), i) == Xor(Halved(k, i), Halved(l, i))
  {
    hide Xor, Down1, Down2, Down4, Down8, Down16, Down32;
    match i
    case 0 => Down1Xor(k, l);
    case 1 => Down2Xor(k, l);
    case 2 => Down4Xor(k, l);
    case 3 => Down8Xor(k, l);
    case 4 => Down16Xor(k, l);
    case _ => Down32Xor(k, l);
  }

  lemma StageXor(k: Lane, l: Lane, z: bv6, i: nat)
    requires i < 6
    ensures Stage(Xor(k, l), z, i) == Xor(Stage(k, z, i), Stage(l, z, i))
  {
    hide Xor, Halved, Digit;
    HalvedXor(k, l, i);
  }

  lemma LowXor(k: Lane, l: Lane)
    ensures Low(Xor(k, l)) == (Low(k) != Low(l))
  {}

  lemma XorBit(k: Lane, l: Lane, z: bv6)
    ensures Bit(Xor(k, l), z) == (Bit(k, z) != Bit(l, z))
  {
    hide *;
    Staged(k, z);
    Staged(l, z);
    Staged(Xor(k, l), z);
    StageXor(k, l, z, 5);
    var k5, l5 := Stage(k, z, 5), Stage(l, z, 5);
    StageXor(k5, l5, z, 4);
    var k4, l4 := Stage(k5, z, 4), Stage(l5, z, 4);
    StageXor(k4, l4, z, 3);
    var k3, l3 := Stage(k4, z, 3), Stage(l4, z, 3);
    StageXor(k3, l3, z, 2);
    var k2, l2 := Stage(k3, z, 2), Stage(l3, z, 2);
    StageXor(k2, l2, z, 1);
    var k1, l1 := Stage(k2, z, 1), Stage(l2, z, 1);
    StageXor(k1, l1, z, 0);
    LowXor(Stage(k1, z, 0), Stage(l1, z, 0));
  }

  lemma HalvedAndNot(k: Lane, l: Lane, i: nat)
    requires i < 6
    ensures Halved(AndNot(k, l), i) == AndNot(Halved(k, i), Halved(l, i))
  {
    hide AndNot, Down1, Down2, Down4, Down8, Down16, Down32;
    match i
    case 0 => Down1AndNot(k, l);
    case 1 => Down2AndNot(k, l);
    case 2 => Down4AndNot(k, l);
    case 3 => Down8AndNot(k, l);
    case 4 => Down16AndNot(k, l);
    case _ => Down32AndNot(k, l);
  }

  lemma StageAndNot(k: Lane, l: Lane, z: bv6, i: nat)
    requires i < 6
    ensures Stage(AndNot(k, l), z, i) == AndNot(Stage(k, z, i), Stage(l, z, i))
  {
    hide AndNot, Halved, Digit;
    HalvedAndNot(k, l, i);
  }

  lemma LowAndNot(k: Lane, l: Lane)
    ensures Low(AndNot(k, l)) == (Low(k) && !Low(l))
  {}

  lemma AndNotBit(k: Lane, l: Lane, z: bv6)
    ensures Bit(AndNot(k, l), z) == (Bit(k, z) && !Bit(l, z))
  {
    hide *;
    Staged(k, z);
    Staged(l, z);
    Staged(AndNot(k, l), z);
    StageAndNot(k, l, z, 5);
    var k5, l5 := Stage(k, z, 5), Stage(l, z, 5);
    StageAndNot(k5, l5, z, 4);
    var k4, l4 := Stage(k5, z, 4), Stage(l5, z, 4);
    StageAndNot(k4, l4, z, 3);
    var k3, l3 := Stage(k4, z, 3), Stage(l4, z, 3);
    StageAndNot(k3, l3, z, 2);
    var k2, l2 := Stage(k3, z, 2), Stage(l3, z, 2);
    StageAndNot(k2, l2, z, 1);
    var k1, l1 := Stage(k2, z, 1), Stage(l2, z, 1);
    StageAndNot(k1, l1, z, 0);
    LowAndNot(Stage(k1, z, 0), Stage(l1, z, 0));
  }

  // ---------------------------------------------------------------------------
  // The step mappings
  // ---------------------------------------------------------------------------

  lemma ParityBit(a: Lanes, x: nat, z: bv6)
    requires x < 5
    ensures Bit(Parity(a, x), z) == C(a, x, z)
  {
    hide Bit, Xor;
    var l0, l1, l2, l3, l4 := a[x], a[x + 5], a[x + 10], a[x + 15], a[x + 20];
    XorBit(l0, l1, z);
    XorBit(Xor(l0, l1), l2, z);
    XorBit(Xor(Xor(l0, l1), l2), l3, z);
    XorBit(Xor(Xor(Xor(l0, l1), l2), l3), l4, z);
  }

  /** Section 3.2.1: A'[x, y, z] = A[x, y, z] xor C[x - 1, z] xor C[x + 1, z - 1] */
  lemma ThetaBits(a: Lanes, x: nat, y: nat, z: bv6)
    requires x < 5 && y < 5
    ensures A(Theta(a), x, y, z) == (A(a, x, y, z) != (C(a, (x + 4) % 5, z) != C(a, (x + 1) % 5, z - 1)))
  {
    hide Bit, Xor, Rot, C, Parity, Theta;
    ThetaAt(a, x, y);
    var before, after := Parity(a, Mod5(x + 4)), Parity(a, Mod5(x + 1));
    XorBit(a[x + 5 * y], ThetaD(a, x), z);
    XorBit(before, Rot(after, 1), z);
    Rot1(after, z);
    ParityBit(a, Mod5(x + 4), z);
    ParityBit(a, Mod5(x + 1), z - 1);
  }

  /**
    Section 3.2.2: A'[0, 0, z] = A[0, 0, z], and A'[x, y, z] = A[x, y, z - (t + 1)(t + 2)/2] for the lane (x, y)
    reached after t steps of the walk from (1, 0).
   */
  lemma RhoBits(a: Lanes, t: nat, z: bv6)
    requires t < 24
    ensures A(Rho(a), 0, 0, z) == A(a, 0, 0, z)
    ensures var (x, y) := RhoWalk(t); A(Rho(a), x, y, z) == A(a, x, y, z - (((t + 1) * (t + 2) / 2 % 64) as bv6))
  {
    hide Bit, Rot, Rho, RhoWalk, OFFSETS;
    RotationOffsets(t);
    var (x, y) := RhoWalk(t);
    RhoAt(a, x, y);
    RhoAt(a, 0, 0);
    RotNone(a[0], z);
    OffsetListed(x, y);
    RotBit(a[x + 5 * y], Offset(x, y), z);
  }

  lemma OffsetListed(x: nat, y: nat)
    requires x < 5 && y < 5
    ensures Offset(x, y) in OFFSETS
  {}

  /** Section 3.2.2, step 2: the walk starts at (1, 0) and goes from (x, y) to (y, 2x + 3y). */
  lemma RhoPath(t: nat)
    ensures RhoWalk(0) == (1, 0)
    ensures var (x, y) := RhoWalk(t); RhoWalk(t + 1) == (y, (2 * x + 3 * y) % 5)
  {}

  /** Section 3.2.3: A'[x, y, z] = A[x + 3y, x, z] */
  lemma PiBits(a: Lanes, x: nat, y: nat, z: bv6)
    requires x < 5 && y < 5
    ensures A(Pi(a), x, y, z) == A(a, (x + 3 * y) % 5, x, z)
  {
    hide Bit, Pi;
    PiAt(a, x, y);
  }

  /** Section 3.2.4: A'[x, y, z] = A[x, y, z] xor ((A[x + 1, y, z] xor 1) and A[x + 2, y, z]) */
  lemma ChiBits(a: Lanes, x: nat, y: nat, z: bv6)
    requires x < 5 && y < 5
    ensures A(Chi(a), x, y, z) == (A(a, x, y, z) != (!A(a, (x + 1) % 5, y, z) && A(a, (x + 2) % 5, y, z)))
  {
    hide Bit, Chi, Xor, AndNot;
    ChiLanes(a, x, y);
    var u, v, w := a[x + 5 * y], At(a, Mod5(x + 1), y), At(a, Mod5(x + 2), y);
    XorBit(u, AndNot(w, v), z);
    AndNotBit(w, v, z);
  }

  /** Section 3.2.5: the round constant goes into lane (0, 0). */
  lemma IotaBits(a: Lanes, rc: Lane, x: nat, y: nat, z: bv6)
    requires x < 5 && y < 5
    ensures A(Iota(a, rc), x, y, z) == (A(a, x, y, z) != (x == 0 && y == 0 && Bit(rc, z)))
  {
    hide Bit, Xor;
    XorBit(a[0], rc, z);
  }

  lemma WordBits(r0: bv8, r1: bv8, r2: bv8, r3: bv8, r4: bv8, r5: bv8, r6: bv8, w: Lane)
    requires w == RcBit(r0, 0x1) | RcBit(r1, 0x2) | RcBit(r2, 0x8) | RcBit(r3, 0x80)
                  | RcBit(r4, 0x8000) | RcBit(r5, 0x8000_0000) | RcBit(r6, 0x8000_0000_0000_0000)
    ensures Bit(w, 0) == (r0 & 1 == 1) && Bit(w, 1) == (r1 & 1 == 1) && Bit(w, 3) == (r2 & 1 == 1) && Bit(w, 7) == (r3 & 1 == 1)
    ensures Bit(w, 15) == (r4 & 1 == 1) && Bit(w, 31) == (r5 & 1 == 1) && Bit(w, 63) == (r6 & 1 == 1)
    ensures w & !0x8000_0000_8000_808B == 0
  {}

  /** Section 3.2.5: bit 2^j - 1 of round constant i is the register's output rc(j + 7i), and all other bits are 0. */
  lemma RoundConstantBits(i: nat)
    requires i < 24
    ensures Bit(RC[i], 0) == (LfsrAfter(7 * i) & 1 == 1) && Bit(RC[i], 1) == (LfsrAfter(7 * i + 1) & 1 == 1)
    ensures Bit(RC[i], 3) == (LfsrAfter(7 * i + 2) & 1 == 1) && Bit(RC[i], 7) == (LfsrAfter(7 * i + 3) & 1 == 1)
    ensures Bit(RC[i], 15) == (LfsrAfter(7 * i + 4) & 1 == 1) && Bit(RC[i], 31) == (LfsrAfter(7 * i + 5) & 1 == 1)
    ensures Bit(RC[i], 63) == (LfsrAfter(7 * i + 6) & 1 == 1)
    ensures RC[i] & !0x8000_0000_8000_808B == 0
  {
    hide Bit, Lfsr, RC, RcBit, LfsrAfter;
    RoundConstants(i);
    var t := 7 * i;
    LfsrNext(t); LfsrNext(t + 1); LfsrNext(t + 2); LfsrNext(t + 3); LfsrNext(t + 4); LfsrNext(t + 5);
    WordBits(LfsrAfter(t), LfsrAfter(t + 1), LfsrAfter(t + 2), LfsrAfter(t + 3), LfsrAfter(t + 4), LfsrAfter(t + 5), LfsrAfter(t + 6), RC[i]);
  }

  lemma LfsrNext(t: nat)
    ensures LfsrAfter(t + 1) == Lfsr(LfsrAfter(t))
  {}

  /** Algorithm 5: the register starts as 1; a step shifts it and, when bit 8 comes out, flips bits 0, 4, 5 and 6. */
  lemma RegisterStep(t: nat)
    ensures LfsrAfter(0) == 1
    ensures LfsrAfter(t) < 128 ==> LfsrAfter(t + 1) == LfsrAfter(t) << 1
    ensures LfsrAfter(t) >= 128 ==> LfsrAfter(t + 1) == (LfsrAfter(t) << 1) ^ 0x71
  {
    hide Lfsr;
    LfsrNext(t);
    LfsrCases(LfsrAfter(t));
  }

  lemma LfsrCases(r: bv8)
    ensures Lfsr(r) == if r < 128 then r << 1 else (r << 1) ^ 0x71
  {}

  /** Section 3.3: the permutation is 24 times theta, rho, pi, chi and iota, in this order. */
  lemma RoundsAre(a: Lanes, i: nat)
    requires i < 24
    ensures Permute(a) == Rounds(a, RC) && |RC| == 24 && Rounds(a, []) == a
    ensures Rounds(a, RC[..i + 1]) == Iota(Chi(Pi(Rho(Theta(Rounds(a, RC[..i]))))), RC[i])
  {
    hide Theta, Rho, Pi, Chi, Iota;
    assert RC[..i + 1][..i] == RC[..i];
  }
}
