/**
  crypto/sha3/xor_generic.go and xor_unaligned.go: moving bytes between buffers and the 25 lanes
  of the state, by loops over lanes and by the threshold-unrolled fast form.
 */
module KeccakLanes {
  import opened KeccakF

  type Byte = bv8

  // ---------------------------------------------------------------------------
  // Lanes as little-endian bytes
  // ---------------------------------------------------------------------------

  function LaneByte(l: Lane, j: nat): (b: Byte)
    requires j < 8
  {
    match j
    case 0 => (l & 0xFF) as Byte
    case 1 => ((l >> 8) & 0xFF) as Byte
    case 2 => ((l >> 16) & 0xFF) as Byte
    case 3 => ((l >> 24) & 0xFF) as Byte
    case 4 => ((l >> 32) & 0xFF) as Byte
    case 5 => ((l >> 40) & 0xFF) as Byte
    case 6 => ((l >> 48) & 0xFF) as Byte
    case _ => ((l >> 56) & 0xFF) as Byte
  }

  /** binary.LittleEndian.Uint64 */
  function LaneOf(b: seq<Byte>): (l: Lane)
    requires |b| == 8
  {
    (b[0] as Lane) | ((b[1] as Lane) << 8) | ((b[2] as Lane) << 16) | ((b[3] as Lane) << 24)
    | ((b[4] as Lane) << 32) | ((b[5] as Lane) << 40) | ((b[6] as Lane) << 48) | ((b[7] as Lane) << 56)
  }

  lemma LaneByteOf(b: seq<Byte>, j: nat)
    requires |b| == 8 && j < 8
    ensures LaneByte(LaneOf(b), j) == b[j]
  {
    assert j == 0 || j == 1 || j == 2 || j == 3 || j == 4 || j == 5 || j == 6 || j == 7;
  }

  /** XOR of lanes is XOR of their bytes. */
  lemma LaneByteXor(k: Lane, l: Lane, j: nat)
    requires j < 8
    ensures LaneByte(Xor(k, l), j) == LaneByte(k, j) ^ LaneByte(l, j)
  {
    match j
    case 0 => LowXor(k, l);
    case 1 => assert (k ^ l) >> 8 == (k >> 8) ^ (l >> 8); LowXor(k >> 8, l >> 8);
    case 2 => assert (k ^ l) >> 16 == (k >> 16) ^ (l >> 16); LowXor(k >> 16, l >> 16);
    case 3 => assert (k ^ l) >> 24 == (k >> 24) ^ (l >> 24); LowXor(k >> 24, l >> 24);
    case 4 => assert (k ^ l) >> 32 == (k >> 32) ^ (l >> 32); LowXor(k >> 32, l >> 32);
    case 5 => assert (k ^ l) >> 40 == (k >> 40) ^ (l >> 40); LowXor(k >> 40, l >> 40);
    case 6 => assert (k ^ l) >> 48 == (k >> 48) ^ (l >> 48); LowXor(k >> 48, l >> 48);
    case _ => assert (k ^ l) >> 56 == (k >> 56) ^ (l >> 56); LowXor(k >> 56, l >> 56);
  }

  lemma LowXor(k: Lane, l: Lane)
    ensures ((k ^ l) & 0xFF) as Byte == ((k & 0xFF) as Byte) ^ ((l & 0xFF) as Byte)
  {}

  /** The 200 bytes of a state, lane by lane. */
  function StateBytes(a: Lanes): (s: seq<Byte>)
    ensures |s| == 200
  {
    seq(200, i requires 0 <= i < 200 => LaneByte(a[i / 8], i % 8))
  }

  /** Lane i of a block of bytes. */
  function BlockLane(buf: seq<Byte>, i: nat): (l: Lane)
    requires 8 * i + 8 <= |buf|
  {
    LaneOf(buf[8 * i..8 * i + 8])
  }

  /** XORs the whole lanes of buf into the first lanes of the state. */
  function XorBlock(a: Lanes, buf: seq<Byte>): (r: Lanes)
  {
    seq(25, i requires 0 <= i < 25 => if 8 * i + 8 <= |buf| then Xor(a[i], BlockLane(buf, i)) else a[i])
  }

  /** Section 4, step 6 of FIPS 202: XORing a block extended by zeros, seen on the bytes of the state. */
  lemma XorBlockBytes(a: Lanes, buf: seq<Byte>, j: nat)
    requires |buf| % 8 == 0 && |buf| <= 200 && j < 200
    ensures StateBytes(XorBlock(a, buf))[j] == StateBytes(a)[j] ^ (if j < |buf| then buf[j] else 0)
  {
    hide Xor, LaneByte, LaneOf;
    var i, k := j / 8, j % 8;
    if j < |buf| {
      InWholeLane(|buf|, j);
      LaneByteXor(a[i], BlockLane(buf, i), k);
      LaneByteOf(buf[8 * i..8 * i + 8], k);
      assert buf[8 * i..8 * i + 8][k] == buf[j];
    }
  }

  lemma InWholeLane(n: nat, j: nat)
    requires n % 8 == 0
    ensures j < n <==> 8 * (j / 8) + 8 <= n
  {}

  // ---------------------------------------------------------------------------
  // xorIn
  // ---------------------------------------------------------------------------

  /** xorInGeneric: lane by lane. */
  method XorInGeneric(a: array<Lane>, buf: seq<Byte>)
    requires a.Length == 25 && |buf| <= 200
    modifies a
    ensures a[..] == XorBlock(old(a[..]), buf)
  {
    hide Xor, LaneOf;
    var n := |buf| / 8;
    var rest := buf;
    for i := 0 to n
      invariant rest == buf[8 * i..]
      invariant forall j | 0 <= j < 25 :: a[j] == if j < i then Xor(old(a[j]), BlockLane(buf, j)) else old(a[j])
    {
      assert rest[..8] == buf[8 * i..8 * i + 8];
      a[i] := Xor(a[i], LaneOf(rest[..8]));
      rest := rest[8..];
    }
  }

  /** The number of lanes the thresholds of xorInUnaligned cover. */
  function Covered(n: nat): (lanes: nat)
    ensures 8 * lanes <= n && lanes <= 21
  {
    if n >= 168 then 21 else if n >= 144 then 18 else if n >= 136 then 17 else if n >= 104 then 13
    else if n >= 72 then 9 else 0
  }

  /** One straight-line group: lanes lo to hi - 1. */
  method XorGroup(a: array<Lane>, buf: seq<Byte>, lo: nat, hi: nat)
    requires a.Length == 25 && lo <= hi <= 25 && 8 * hi <= |buf|
    modifies a
    ensures forall j | 0 <= j < 25 :: a[j] == if lo <= j < hi then Xor(old(a[j]), BlockLane(buf, j)) else old(a[j])
  {
    forall i | lo <= i < hi {
      a[i] := Xor(a[i], BlockLane(buf, i));
    }
  }

  /** xorInUnaligned: groups of lanes, guarded by the rates in use. */
  method XorInUnaligned(a: array<Lane>, buf: seq<Byte>)
    requires a.Length == 25 && |buf| > 0
    modifies a
    ensures a[..] == XorBlock(old(a[..]), buf[..8 * Covered(|buf|)])
  {
    hide Xor, BlockLane;
    var n := |buf|;
    if n >= 72 { XorGroup(a, buf, 0, 9); }
    if n >= 104 { XorGroup(a, buf, 9, 13); }
    if n >= 136 { XorGroup(a, buf, 13, 17); }
    if n >= 144 { XorGroup(a, buf, 17, 18); }
    if n >= 168 { XorGroup(a, buf, 18, 21); }
    ghost var c := Covered(n);
    assert forall j | 0 <= j < 25 :: a[j] == if j < c then Xor(old(a[j]), BlockLane(buf, j)) else old(a[j]);
    forall i: nat | i < c
      ensures BlockLane(buf[..8 * c], i) == BlockLane(buf, i)
    {
      BlockLanePrefix(buf, c, i);
    }
  }

  /**
    The fast form XORs in the same lanes as the loop, whatever the contents, exactly when its
    thresholds cover every whole lane of the buffer; that includes all five rates in use.
   */
  lemma UnalignedAgrees(n: nat)
    requires n <= 200
    ensures (forall a: Lanes, buf: seq<Byte> | |buf| == n ::
               XorBlock(a, buf[..8 * Covered(n)]) == XorBlock(a, buf))
            <==> Covered(n) == n / 8
    ensures n in {72, 104, 136, 144, 168} ==> Covered(n) == n / 8
  {
    hide BlockLane;
    var c := Covered(n);
    if c == n / 8 {
      forall a: Lanes, buf: seq<Byte> | |buf| == n
        ensures XorBlock(a, buf[..8 * c]) == XorBlock(a, buf)
      {
        forall i: nat | i < c
          ensures BlockLane(buf[..8 * c], i) == BlockLane(buf, i)
        {
          BlockLanePrefix(buf, c, i);
        }
      }
    } else {
      var a: Lanes := seq(25, _ => 0);
      var buf: seq<Byte> := seq(n, _ => 1);
      OnesLane(buf, c);
      assert XorBlock(a, buf)[c] == Xor(0, BlockLane(buf, c));
      assert XorBlock(a, buf[..8 * c])[c] == 0;
    }
  }

  lemma OnesLane(buf: seq<Byte>, i: nat)
    requires 8 * i + 8 <= |buf| && forall j | 0 <= j < |buf| :: buf[j] == 1
    ensures BlockLane(buf, i) != 0
  {}

  // ---------------------------------------------------------------------------
  // copyOut
  // ---------------------------------------------------------------------------

  /** copyOutGeneric: whole lanes, as long as eight bytes are left. */
  method CopyOutGeneric(a: array<Lane>, b: array<Byte>, n: nat)
    requires a.Length == 25 && n <= b.Length && n <= 200
    modifies b
    ensures b[..8 * (n / 8)] == StateBytes(a[..])[..8 * (n / 8)]
    ensures forall j | 8 * (n / 8) <= j < b.Length :: b[j] == old(b[j])
  {
    hide LaneByte, StateBytes;
    var i := 0;
    while n - 8 * i >= 8
      invariant 0 <= 8 * i <= n
      invariant b[..8 * i] == StateBytes(a[..])[..8 * i]
      invariant forall j | 8 * i <= j < b.Length :: b[j] == old(b[j])
    {
      ghost var done := b[..8 * i];
      PutUint64(b, 8 * i, a[i]);
      assert b[..8 * i] == done;
      LaneInState(a[..], i);
      assert b[..8 * (i + 1)] == done + b[8 * i..8 * i + 8];
      i := i + 1;
    }
  }

  function LaneBytes(l: Lane): (s: seq<Byte>)
    ensures |s| == 8
  {
    seq(8, j requires 0 <= j < 8 => LaneByte(l, j))
  }

  lemma LaneInState(a: Lanes, i: nat)
    requires i < 25
    ensures StateBytes(a)[..8 * (i + 1)] == StateBytes(a)[..8 * i] + LaneBytes(a[i])
  {
    hide LaneByte;
  }

  /** binary.LittleEndian.PutUint64 */
  method PutUint64(b: array<Byte>, at: nat, l: Lane)
    requires at + 8 <= b.Length
    modifies b
    ensures b[at..at + 8] == LaneBytes(l)
    ensures forall j | 0 <= j < b.Length && !(at <= j < at + 8) :: b[j] == old(b[j])
  {
    hide LaneByte;
    forall j | 0 <= j < 8 {
      b[at + j] := LaneByte(l, j);
    }
  }

  /** copyOutUnaligned: the state's memory, at most maxRate bytes of it. */
  method CopyOutUnaligned(a: array<Lane>, b: array<Byte>, n: nat)
    requires a.Length == 25 && n <= b.Length && n <= 168
    modifies b
    ensures b[..n] == StateBytes(a[..])[..n]
    ensures forall j | n <= j < b.Length :: b[j] == old(b[j])
  {
    var ab := StateBytes(a[..]);
    forall j | 0 <= j < n {
      b[j] := ab[j];
    }
  }

  lemma BlockLanePrefix(buf: seq<Byte>, c: nat, i: nat)
    requires 8 * c <= |buf| && i < c
    ensures BlockLane(buf[..8 * c], i) == BlockLane(buf, i)
  {
    assert buf[..8 * c][8 * i..8 * i + 8] == buf[8 * i..8 * i + 8];
  }
}
