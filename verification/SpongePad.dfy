/**
  The byte-level padding of crypto/sha3 is the bit-level one of FIPS 202: the domain suffix of
  sections 6.1 and 6.2 followed by pad10*1 of section 5.1. Bits are numbered from the least
  significant bit of each byte upwards.
 */
module SpongePad {
  import opened KeccakLanes
  import opened KeccakF
  import opened Sponge
  import KeccakBits

  function Bit(b: Byte, j: nat): (r: bool)
    requires j < 8
  {
    match j
    case 0 => b & 0x01 != 0
    case 1 => b & 0x02 != 0
    case 2 => b & 0x04 != 0
    case 3 => b & 0x08 != 0
    case 4 => b & 0x10 != 0
    case 5 => b & 0x20 != 0
    case 6 => b & 0x40 != 0
    case _ => b & 0x80 != 0
  }

  function Bits(s: seq<Byte>): (r: seq<bool>)
    ensures |r| == 8 * |s|
  {
    seq(8 * |s|, k requires 0 <= k < 8 * |s| => Bit(s[k / 8], k % 8))
  }

  // ---------------------------------------------------------------------------
  // States as bit strings
  // ---------------------------------------------------------------------------

  lemma Byte0Bits(l: Lane)
    ensures Bit(LaneByte(l, 0), 0) == KeccakBits.Bit(l, Place(0)) && Bit(LaneByte(l, 0), 1) == KeccakBits.Bit(l, Place(1)) && Bit(LaneByte(l, 0), 2) == KeccakBits.Bit(l, Place(2)) && Bit(LaneByte(l, 0), 3) == KeccakBits.Bit(l, Place(3))
    ensures Bit(LaneByte(l, 0), 4) == KeccakBits.Bit(l, Place(4)) && Bit(LaneByte(l, 0), 5) == KeccakBits.Bit(l, Place(5)) && Bit(LaneByte(l, 0), 6) == KeccakBits.Bit(l, Place(6)) && Bit(LaneByte(l, 0), 7) == KeccakBits.Bit(l, Place(7))
  {
    assert Place(0) == 0 && Place(1) == 1 && Place(2) == 2 && Place(3) == 3 && Place(4) == 4 && Place(5) == 5 && Place(6) == 6 && Place(7) == 7;
  }

  lemma Byte1Bits(l: Lane)
    ensures Bit(LaneByte(l, 1), 0) == KeccakBits.Bit(l, Place(8)) && Bit(LaneByte(l, 1), 1) == KeccakBits.Bit(l, Place(9)) && Bit(LaneByte(l, 1), 2) == KeccakBits.Bit(l, Place(10)) && Bit(LaneByte(l, 1), 3) == KeccakBits.Bit(l, Place(11))
    ensures Bit(LaneByte(l, 1), 4) == KeccakBits.Bit(l, Place(12)) && Bit(LaneByte(l, 1), 5) == KeccakBits.Bit(l, Place(13)) && Bit(LaneByte(l, 1), 6) == KeccakBits.Bit(l, Place(14)) && Bit(LaneByte(l, 1), 7) == KeccakBits.Bit(l, Place(15))
  {
    assert Place(8) == 8 && Place(9) == 9 && Place(10) == 10 && Place(11) == 11 && Place(12) == 12 && Place(13) == 13 && Place(14) == 14 && Place(15) == 15;
  }

  lemma Byte2Bits(l: Lane)
    ensures Bit(LaneByte(l, 2), 0) == KeccakBits.Bit(l, Place(16)) && Bit(LaneByte(l, 2), 1) == KeccakBits.Bit(l, Place(17)) && Bit(LaneByte(l, 2), 2) == KeccakBits.Bit(l, Place(18)) && Bit(LaneByte(l, 2), 3) == KeccakBits.Bit(l, Place(19))
    ensures Bit(LaneByte(l, 2), 4) == KeccakBits.Bit(l, Place(20)) && Bit(LaneByte(l, 2), 5) == KeccakBits.Bit(l, Place(21)) && Bit(LaneByte(l, 2), 6) == KeccakBits.Bit(l, Place(22)) && Bit(LaneByte(l, 2), 7) == KeccakBits.Bit(l, Place(23))
  {
    assert Place(16) == 16 && Place(17) == 17 && Place(18) == 18 && Place(19) == 19 && Place(20) == 20 && Place(21) == 21 && Place(22) == 22 && Place(23) == 23;
  }

  lemma Byte3Bits(l: Lane)
    ensures Bit(LaneByte(l, 3), 0) == KeccakBits.Bit(l, Place(24)) && Bit(LaneByte(l, 3), 1) == KeccakBits.Bit(l, Place(25)) && Bit(LaneByte(l, 3), 2) == KeccakBits.Bit(l, Place(26)) && Bit(LaneByte(l, 3), 3) == KeccakBits.Bit(l, Place(27))
    ensures Bit(LaneByte(l, 3), 4) == KeccakBits.Bit(l, Place(28)) && Bit(LaneByte(l, 3), 5) == KeccakBits.Bit(l, Place(29)) && Bit(LaneByte(l, 3), 6) == KeccakBits.Bit(l, Place(30)) && Bit(LaneByte(l, 3), 7) == KeccakBits.Bit(l, Place(31))
  {
    assert Place(24) == 24 && Place(25) == 25 && Place(26) == 26 && Place(27) == 27 && Place(28) == 28 && Place(29) == 29 && Place(30) == 30 && Place(31) == 31;
  }

  lemma Byte4Bits(l: Lane)
    ensures Bit(LaneByte(l, 4), 0) == KeccakBits.Bit(l, Place(32)) && Bit(LaneByte(l, 4), 1) == KeccakBits.Bit(l, Place(33)) && Bit(LaneByte(l, 4), 2) == KeccakBits.Bit(l, Place(34)) && Bit(LaneByte(l, 4), 3) == KeccakBits.Bit(l, Place(35))
    ensures Bit(LaneByte(l, 4), 4) == KeccakBits.Bit(l, Place(36)) && Bit(LaneByte(l, 4), 5) == KeccakBits.Bit(l, Place(37)) && Bit(LaneByte(l, 4), 6) == KeccakBits.Bit(l, Place(38)) && Bit(LaneByte(l, 4), 7) == KeccakBits.Bit(l, Place(39))
  {
    assert Place(32) == 32 && Place(33) == 33 && Place(34) == 34 && Place(35) == 35 && Place(36) == 36 && Place(37) == 37 && Place(38) == 38 && Place(39) == 39;
  }

  lemma Byte5Bits(l: Lane)
    ensures Bit(LaneByte(l, 5), 0) == KeccakBits.Bit(l, Place(40)) && Bit(LaneByte(l, 5), 1) == KeccakBits.Bit(l, Place(41)) && Bit(LaneByte(l, 5), 2) == KeccakBits.Bit(l, Place(42)) && Bit(LaneByte(l, 5), 3) == KeccakBits.Bit(l, Place(43))
    ensures Bit(LaneByte(l, 5), 4) == KeccakBits.Bit(l, Place(44)) && Bit(LaneByte(l, 5), 5) == KeccakBits.Bit(l, Place(45)) && Bit(LaneByte(l, 5), 6) == KeccakBits.Bit(l, Place(46)) && Bit(LaneByte(l, 5), 7) == KeccakBits.Bit(l, Place(47))
  {
    assert Place(40) == 40 && Place(41) == 41 && Place(42) == 42 && Place(43) == 43 && Place(44) == 44 && Place(45) == 45 && Place(46) == 46 && Place(47) == 47;
  }

  lemma Byte6Bits(l: Lane)
    ensures Bit(LaneByte(l, 6), 0) == KeccakBits.Bit(l, Place(48)) && Bit(LaneByte(l, 6), 1) == KeccakBits.Bit(l, Place(49)) && Bit(LaneByte(l, 6), 2) == KeccakBits.Bit(l, Place(50)) && Bit(LaneByte(l, 6), 3) == KeccakBits.Bit(l, Place(51))
    ensures Bit(LaneByte(l, 6), 4) == KeccakBits.Bit(l, Place(52)) && Bit(LaneByte(l, 6), 5) == KeccakBits.Bit(l, Place(53)) && Bit(LaneByte(l, 6), 6) == KeccakBits.Bit(l, Place(54)) && Bit(LaneByte(l, 6), 7) == KeccakBits.Bit(l, Place(55))
  {
    assert Place(48) == 48 && Place(49) == 49 && Place(50) == 50 && Place(51) == 51 && Place(52) == 52 && Place(53) == 53 && Place(54) == 54 && Place(55) == 55;
  }

  lemma Byte7Bits(l: Lane)
    ensures Bit(LaneByte(l, 7), 0) == KeccakBits.Bit(l, Place(56)) && Bit(LaneByte(l, 7), 1) == KeccakBits.Bit(l, Place(57)) && Bit(LaneByte(l, 7), 2) == KeccakBits.Bit(l, Place(58)) && Bit(LaneByte(l, 7), 3) == KeccakBits.Bit(l, Place(59))
    ensures Bit(LaneByte(l, 7), 4) == KeccakBits.Bit(l, Place(60)) && Bit(LaneByte(l, 7), 5) == KeccakBits.Bit(l, Place(61)) && Bit(LaneByte(l, 7), 6) == KeccakBits.Bit(l, Place(62)) && Bit(LaneByte(l, 7), 7) == KeccakBits.Bit(l, Place(63))
  {
    assert Place(56) == 56 && Place(57) == 57 && Place(58) == 58 && Place(59) == 59 && Place(60) == 60 && Place(61) == 61 && Place(62) == 62 && Place(63) == 63;
  }

  lemma LaneBit(l: Lane, j: nat, k: nat)
    requires j < 8 && k < 8
    ensures Bit(LaneByte(l, j), k) == KeccakBits.Bit(l, Place(8 * j + k))
  {
    hide Bit, LaneByte, KeccakBits.Bit, Place;
    match j
    case 0 => Byte0Bits(l);
    case 1 => Byte1Bits(l);
    case 2 => Byte2Bits(l);
    case 3 => Byte3Bits(l);
    case 4 => Byte4Bits(l);
    case 5 => Byte5Bits(l);
    case 6 => Byte6Bits(l);
    case _ => Byte7Bits(l);
  }

  function Place(n: nat): (z: bv6)
    requires n < 64
  {
    n as bv6
  }

  lemma SplitPlace(i: nat, z: nat)
    requires z < 64
    ensures (64 * i + z) / 8 == 8 * i + z / 8 && (64 * i + z) % 8 == z % 8 && 8 * (z / 8) + z % 8 == z
    ensures (8 * i + z / 8) / 8 == i && (8 * i + z / 8) % 8 == z / 8
  {}

  lemma BitsAt(s: seq<Byte>, n: nat)
    requires n < 8 * |s|
    ensures Bits(s)[n] == Bit(s[n / 8], n % 8)
  {
    hide Bit;
  }

  lemma StateBytesAt(a: Lanes, m: nat)
    requires m < 200
    ensures StateBytes(a)[m] == LaneByte(a[m / 8], m % 8)
  {
    hide LaneByte;
  }

  /** Section 3.1.2: bit 64(5y + x) + z of the string of a state is A[x, y, z]. */
  lemma StateString(a: Lanes, x: nat, y: nat, z: nat)
    requires x < 5 && y < 5 && z < 64
    ensures |Bits(StateBytes(a))| == 1600 && Bits(StateBytes(a))[64 * (5 * y + x) + z] == KeccakBits.A(a, x, y, Place(z))
  {
    hide Bit, Bits, LaneByte, StateBytes, KeccakBits.Bit, Place;
    var i := 5 * y + x;
    SplitPlace(i, z);
    BitsAt(StateBytes(a), 64 * i + z);
    StateBytesAt(a, 8 * i + z / 8);
    LaneBit(a[i], z / 8, z % 8);
  }

  // ---------------------------------------------------------------------------
  // Padding
  // ---------------------------------------------------------------------------

  /** The message suffix that a domain byte stands for: SHA-3 "01", SHAKE "1111", legacy Keccak none. */
  function Suffix(ds: Byte): (r: seq<bool>)
    requires ds in {0x06, 0x1f, 0x01}
    ensures |r| <= 4
  {
    if ds == 0x06 then [false, true] else if ds == 0x1f then [true, true, true, true] else []
  }

  predicate Multiple(n: nat, q: nat, x: nat) { n == q * x }

  ghost predicate IsMultiple(n: nat, x: nat) { exists q: nat :: Multiple(n, q, x) }

  /** Section 5.1: pad10*1(x, m) = 1 0^j 1 with j = (-m - 2) mod x, the j below x that reaches a multiple of x. */
  ghost predicate IsPad(x: nat, m: nat, p: seq<bool>)
    requires x > 0
  {
    && 2 <= |p| < x + 2
    && p[0] && p[|p| - 1]
    && (forall k | 1 <= k < |p| - 1 :: !p[k])
    && IsMultiple(m + |p|, x)
  }

  /** The bits of the padding after the suffix. */
  function PadBits(n: nat): (p: seq<bool>)
    requires n >= 2
    ensures |p| == n
  {
    seq(n, k => k == 0 || k == n - 1)
  }

  lemma BitsConcat(s: seq<Byte>, t: seq<Byte>)
    ensures Bits(s + t) == Bits(s) + Bits(t)
  {
    hide Bit;
    forall k | 0 <= k < 8 * |s + t|
      ensures Bits(s + t)[k] == (Bits(s) + Bits(t))[k]
    {
      if k >= 8 * |s| {
        var i := k - 8 * |s|;
        assert k / 8 == |s| + i / 8 && k % 8 == i % 8;
      }
    }
  }

  lemma DomainBits(ds: Byte, j: nat)
    requires ds in {0x06, 0x1f, 0x01} && j < 8
    ensures Bit(ds, j) == (if j < |Suffix(ds)| then Suffix(ds)[j] else j == |Suffix(ds)|)
    ensures Bit(ds ^ 0x80, j) == (Bit(ds, j) || j == 7)
    ensures Bit(0x80, j) == (j == 7) && !Bit(0, j)
  {
    assert j == 0 || j == 1 || j == 2 || j == 3 || j == 4 || j == 5 || j == 6 || j == 7;
  }

  lemma XorZero(b: Byte)
    ensures b ^ 0 == b && 0 ^ b == b
  {}

  /** Bit k of an n-bit padding: suffix, then a one bit, zeros, and a one bit at the end. */
  function PadBit(n: nat, ds: Byte, k: nat): (r: bool)
    requires ds in {0x06, 0x1f, 0x01}
  {
    if k < |Suffix(ds)| then Suffix(ds)[k] else k == |Suffix(ds)| || k == n - 1
  }

  /** One padding byte, bit by bit. */
  lemma PadByteBits(t: nat, rate: nat, ds: Byte, i: nat, j: nat)
    requires t < rate && i < rate - t && j < 8 && ds in {0x06, 0x1f, 0x01}
    ensures Bit(PadBytes(t, rate, ds)[i], j) == PadBit(8 * (rate - t), ds, 8 * i + j)
  {
    hide Bit, Suffix;
    DomainBits(ds, j);
    XorZero(ds);
    XorZero(0x80);
    XorZero(0);
  }

  lemma PadBytesBits(t: nat, rate: nat, ds: Byte)
    requires t < rate && ds in {0x06, 0x1f, 0x01}
    ensures Bits(PadBytes(t, rate, ds)) == Suffix(ds) + PadBits(8 * (rate - t) - |Suffix(ds)|)
  {
    hide Bit, Suffix, PadBytes;
    var b, f, n := PadBytes(t, rate, ds), |Suffix(ds)|, 8 * (rate - t);
    forall k | 0 <= k < n
      ensures Bits(b)[k] == (Suffix(ds) + PadBits(n - f))[k]
    {
      PadByteBits(t, rate, ds, k / 8, k % 8);
    }
  }

  lemma {:induction false} TailLength(m: seq<Byte>, rate: nat) returns (q: nat)
    requires rate > 0
    ensures Multiple(|m| - |Tail(m, rate)|, q, rate)
    decreases |m|
  {
    if |m| < rate {
      q := 0;
    } else {
      var p := TailLength(m[rate..], rate);
      q := p + 1;
      NextMultiple(|m| - rate - |Tail(m[rate..], rate)|, p, rate);
    }
  }

  lemma NextMultiple(n: nat, q: nat, x: nat)
    requires Multiple(n, q, x)
    ensures Multiple(n + x, q + 1, x)
  {}

  lemma MultipleBits(n: nat, q: nat, x: nat)
    requires Multiple(n, q, x)
    ensures Multiple(8 * n, q, 8 * x)
  {
    assert 8 * (q * x) == q * (8 * x);
  }

  /**
    What is absorbed is the message, its domain suffix and pad10*1, also when the domain bits
    and the final one bit share the last byte of the block.
   */
  lemma PaddingIsStandard(m: seq<Byte>, rate: nat, ds: Byte)
    requires rate > 0 && ds in {0x06, 0x1f, 0x01}
    ensures exists p ::
              && IsPad(8 * rate, |Bits(m) + Suffix(ds)|, p)
              && Bits(Padded(m, rate, ds)) == Bits(m) + Suffix(ds) + p
  {
    hide Bits, Suffix, PadBytes, Tail, IsPad, PadBits;
    var t, f := |Tail(m, rate)|, |Suffix(ds)|;
    var p := PadBits(8 * (rate - t) - f);
    BitsConcat(m, PadBytes(t, rate, ds));
    PadBytesBits(t, rate, ds);
    assert Bits(m) + (Suffix(ds) + p) == Bits(m) + Suffix(ds) + p;
    PadReachesBlock(m, rate, f);
    PadBitsArePad(8 * rate, 8 * |m| + f, 8 * (rate - t) - f);
  }

  lemma PadReachesBlock(m: seq<Byte>, rate: nat, f: nat)
    requires rate > 0 && f <= 4
    ensures IsMultiple(8 * |m| + f + (8 * (rate - |Tail(m, rate)|) - f), 8 * rate)
  {
    hide Tail, Multiple;
    var t := |Tail(m, rate)|;
    var q := TailLength(m, rate);
    NextMultiple(|m| - t, q, rate);
    MultipleBits(|m| - t + rate, q + 1, rate);
    assert 8 * (|m| - t + rate) == 8 * |m| + f + (8 * (rate - t) - f);
  }

  lemma PadBitsArePad(x: nat, m: nat, n: nat)
    requires x > 0 && 2 <= n < x + 2 && IsMultiple(m + n, x)
    ensures IsPad(x, m, PadBits(n))
  {}
}
