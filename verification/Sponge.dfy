/**
  crypto/sha3/sha3.go: the sponge over Keccak-f[1600]. Writes are buffered up to whole blocks of
  `rate` bytes, with a fast path that skips the buffer; reads drain a window onto the storage.
  The reference is section 4 of FIPS 202.
 */
module Sponge {
  import opened Basics
  import opened KeccakF
  import opened KeccakLanes

  const MAX_RATE: nat := 168

  /** The all-zero state. */
  function Zero(): (z: Lanes) { seq(25, _ => 0) }

  // ---------------------------------------------------------------------------
  // FIPS 202, section 4
  // ---------------------------------------------------------------------------

  /** The state after absorbing the whole blocks of m. */
  function Absorb(s: Lanes, m: seq<Byte>, rate: nat): (r: Lanes)
    requires rate > 0
    decreases |m|
  {
    if |m| < rate then s else Absorb(Permute(XorBlock(s, m[..rate])), m[rate..], rate)
  }

  /** What is left of m after its whole blocks. */
  function Tail(m: seq<Byte>, rate: nat): (t: seq<Byte>)
    requires rate > 0
    ensures |t| < rate
    decreases |m|
  {
    if |m| < rate then m else Tail(m[rate..], rate)
  }

  /** The padding of a message whose last partial block has t bytes: domain bits, zeros, and a final one bit. */
  function PadBytes(t: nat, rate: nat, ds: Byte): (p: seq<Byte>)
    requires t < rate
    ensures |p| == rate - t
  {
    seq(rate - t, i requires 0 <= i < rate - t =>
          (if i == 0 then ds else 0) ^ (if i == rate - t - 1 then 0x80 else 0))
  }

  function Padded(m: seq<Byte>, rate: nat, ds: Byte): (p: seq<Byte>)
    requires rate > 0
  {
    m + PadBytes(|Tail(m, rate)|, rate, ds)
  }

  /** The first n bytes squeezed out of state s. */
  function Squeeze(s: Lanes, rate: nat, n: nat): (out: seq<Byte>)
    requires 0 < rate <= 200
    ensures |out| == n
    decreases n
  {
    if n <= rate then StateBytes(s)[..n]
    else StateBytes(s)[..rate] + Squeeze(Permute(s), rate, n - rate)
  }

  /** SPONGE[Keccak-p, pad, rate](m, n) */
  function SpongeOutput(m: seq<Byte>, rate: nat, ds: Byte, n: nat): (out: seq<Byte>)
    requires 0 < rate <= 200
    ensures |out| == n
  {
    Squeeze(Absorb(Zero(), Padded(m, rate, ds), rate), rate, n)
  }

  // ---------------------------------------------------------------------------
  // Absorbing piecewise
  // ---------------------------------------------------------------------------

  /** Absorbing m and then p is absorbing p after m's tail. */
  lemma {:induction false} AbsorbConcat(s: Lanes, m: seq<Byte>, p: seq<Byte>, rate: nat)
    requires rate > 0
    ensures Absorb(s, m + p, rate) == Absorb(Absorb(s, m, rate), Tail(m, rate) + p, rate)
    ensures Tail(m + p, rate) == Tail(Tail(m, rate) + p, rate)
    decreases |m|
  {
    hide Permute, XorBlock;
    if |m| >= rate {
      assert (m + p)[..rate] == m[..rate] && (m + p)[rate..] == m[rate..] + p;
      AbsorbConcat(Permute(XorBlock(s, m[..rate])), m[rate..], p, rate);
    }
  }

  lemma NothingAbsorbed(rate: nat)
    requires rate > 0
    ensures Absorb(Zero(), [], rate) == Zero() && Tail([], rate) == []
  {}

  /** A chunk that at most fills the current block. */
  lemma AbsorbChunk(s: Lanes, m: seq<Byte>, c: seq<Byte>, rate: nat)
    requires rate > 0 && |Tail(m, rate)| + |c| <= rate
    ensures var b := Tail(m, rate) + c; var a := Absorb(s, m, rate);
            if |b| == rate
            then Absorb(s, m + c, rate) == Permute(XorBlock(a, b)) && Tail(m + c, rate) == []
            else Absorb(s, m + c, rate) == a && Tail(m + c, rate) == b
  {
    hide Permute, XorBlock;
    AbsorbConcat(s, m, c, rate);
    var b := Tail(m, rate) + c;
    if |b| == rate {
      assert b[..rate] == b && b[rate..] == [];
    }
  }

  /** The padding completes the last block. */
  lemma AbsorbPadding(s: Lanes, m: seq<Byte>, rate: nat, ds: Byte)
    requires rate > 0
    ensures Absorb(s, Padded(m, rate, ds), rate)
         == Permute(XorBlock(Absorb(s, m, rate), Tail(m, rate) + PadBytes(|Tail(m, rate)|, rate, ds)))
  {
    hide Permute, XorBlock;
    AbsorbChunk(s, m, PadBytes(|Tail(m, rate)|, rate, ds), rate);
  }

  /** Algorithm 8, step 6, on bytes: block i is XORed into the first rate bytes of the state, which is then permuted. */
  lemma AbsorbBlock(s: Lanes, m: seq<Byte>, b: seq<Byte>, rate: nat)
    requires 0 < rate <= 200 && rate % 8 == 0 && Tail(m, rate) == [] && |b| == rate
    ensures Absorb(s, [], rate) == s && Tail(m + b, rate) == []
    ensures Absorb(s, m + b, rate) == Permute(XorBlock(Absorb(s, m, rate), b))
    ensures forall j: nat | j < 200 ::
      StateBytes(XorBlock(Absorb(s, m, rate), b))[j] == StateBytes(Absorb(s, m, rate))[j] ^ (if j < rate then b[j] else 0)
  {
    hide Permute, XorBlock, StateBytes;
    AbsorbChunk(s, m, b, rate);
    assert [] + b == b;
    forall j: nat | j < 200
      ensures StateBytes(XorBlock(Absorb(s, m, rate), b))[j] == StateBytes(Absorb(s, m, rate))[j] ^ (if j < rate then b[j] else 0)
    {
      XorBlockBytes(Absorb(s, m, rate), b, j);
    }
  }

  // ---------------------------------------------------------------------------
  // Squeezing piecewise
  // ---------------------------------------------------------------------------

  function PermuteN(s: Lanes, q: nat): (r: Lanes)
  {
    if q == 0 then s else Permute(PermuteN(s, q - 1))
  }

  /** The first q whole blocks of output. */
  function OutBlocks(s: Lanes, rate: nat, q: nat): (out: seq<Byte>)
    requires rate <= 200
  {
    if q == 0 then [] else OutBlocks(s, rate, q - 1) + StateBytes(PermuteN(s, q - 1))[..rate]
  }

  lemma {:induction false} PermuteFirst(s: Lanes, q: nat)
    ensures PermuteN(Permute(s), q) == PermuteN(s, q + 1)
  {
    hide Permute;
    if q > 0 { PermuteFirst(s, q - 1); }
  }

  lemma {:induction false} OutBlocksFirst(s: Lanes, rate: nat, q: nat)
    requires rate <= 200
    ensures OutBlocks(s, rate, q + 1) == StateBytes(s)[..rate] + OutBlocks(Permute(s), rate, q)
  {
    hide Permute, StateBytes, OutBlocks, PermuteN;
    OutBlocksStep(s, rate, q);
    if q == 0 {
      OutBlocksNone(s, rate);
      OutBlocksNone(Permute(s), rate);
      PermuteNone(s);
      assert [] + StateBytes(s)[..rate] == StateBytes(s)[..rate] + [];
    } else {
      OutBlocksFirst(s, rate, q - 1);
      OutBlocksStep(Permute(s), rate, q - 1);
      PermuteFirst(s, q - 1);
      var first, rest, last := StateBytes(s)[..rate], OutBlocks(Permute(s), rate, q - 1), StateBytes(PermuteN(s, q))[..rate];
      assert first + rest + last == first + (rest + last);
    }
  }

  lemma OutBlocksStep(s: Lanes, rate: nat, q: nat)
    requires rate <= 200
    ensures OutBlocks(s, rate, q + 1) == OutBlocks(s, rate, q) + StateBytes(PermuteN(s, q))[..rate]
  {
    hide StateBytes, PermuteN;
  }

  lemma PermuteNone(s: Lanes)
    ensures PermuteN(s, 0) == s
  {}

  /** The output after q whole blocks and r bytes of the next one. */
  function OutSoFar(s: Lanes, rate: nat, q: nat, r: nat): (out: seq<Byte>)
    requires r <= rate <= 200
  {
    OutBlocks(s, rate, q) + StateBytes(PermuteN(s, q))[..r]
  }

  lemma OutSoFarFirst(s: Lanes, rate: nat, q: nat, r: nat)
    requires r <= rate <= 200
    ensures OutSoFar(s, rate, 0, r) == StateBytes(s)[..r]
    ensures OutSoFar(s, rate, q + 1, r) == StateBytes(s)[..rate] + OutSoFar(Permute(s), rate, q, r)
  {
    hide Permute, StateBytes, OutBlocks, PermuteN;
    OutBlocksNone(s, rate);
    PermuteNone(s);
    assert [] + StateBytes(s)[..r] == StateBytes(s)[..r];
    OutBlocksFirst(s, rate, q);
    PermuteFirst(s, q);
  }

  lemma OutBlocksNone(s: Lanes, rate: nat)
    requires rate <= 200
    ensures OutBlocks(s, rate, 0) == []
  {}

  lemma SqueezeFirst(s: Lanes, rate: nat, n: nat)
    requires 0 < rate <= 200
    ensures n <= rate ==> Squeeze(s, rate, n) == StateBytes(s)[..n]
    ensures Squeeze(s, rate, n + rate) == StateBytes(s)[..rate] + Squeeze(Permute(s), rate, n)
  {
    hide Permute, StateBytes;
    if n == 0 {
      assert StateBytes(s)[..rate] + [] == StateBytes(s)[..rate];
      assert Squeeze(Permute(s), rate, 0) == [];
    }
  }

  /** Algorithm 8, steps 8 to 10: byte r of output block q is byte r of the state permuted q times more. */
  lemma {:induction false} SqueezeByte(s: Lanes, rate: nat, n: nat, q: nat, r: nat, k: nat)
    requires r < rate <= 200 && k < n && k == q * rate + r
    ensures Squeeze(s, rate, n)[k] == StateBytes(PermuteN(s, q))[r]
    decreases q
  {
    hide Permute, StateBytes, PermuteN, Squeeze;
    if q == 0 {
      PermuteNone(s);
      SqueezeBlock(s, rate, n, r);
    } else {
      Scaled(q, rate);
      var rest := n - rate;
      assert k - rate == (q - 1) * rate + r;
      SqueezeByte(Permute(s), rate, rest, q - 1, r, k - rate);
      PermuteFirst(s, q - 1);
      SqueezeFirst(s, rate, rest);
    }
  }

  lemma SqueezeBlock(s: Lanes, rate: nat, n: nat, r: nat)
    requires r < rate <= 200 && r < n
    ensures Squeeze(s, rate, n)[r] == StateBytes(s)[r]
  {
    hide Permute, StateBytes;
  }

  /** The sponge starts from the all-zero state; PermuteN permutes as often as it says. */
  lemma SpongeByte(m: seq<Byte>, rate: nat, ds: Byte, n: nat, q: nat, r: nat, k: nat)
    requires r < rate <= 200 && k < n && k == q * rate + r
    ensures SpongeOutput(m, rate, ds, n)[k] == StateBytes(PermuteN(Absorb(seq(25, _ => 0), Padded(m, rate, ds), rate), q))[r]
    ensures forall s: Lanes :: PermuteN(s, 0) == s && PermuteN(s, q + 1) == Permute(PermuteN(s, q))
  {
    hide Squeeze, Absorb, Padded, StateBytes, Permute;
    assert Zero() == seq(25, _ => 0);
    SqueezeByte(Absorb(Zero(), Padded(m, rate, ds), rate), rate, n, q, r, k);
  }

  /** Output in whole blocks and a rest is the output stream. */
  lemma {:induction false} SqueezePosition(s: Lanes, rate: nat, q: nat, r: nat)
    requires 0 < rate <= 200 && r <= rate
    ensures OutSoFar(s, rate, q, r) == Squeeze(s, rate, |OutSoFar(s, rate, q, r)|)
    decreases q
  {
    hide Permute, StateBytes, OutSoFar, Squeeze;
    if q == 0 {
      OutSoFarFirst(s, rate, 0, r);
      SqueezeFirst(s, rate, r);
    } else {
      SqueezePosition(Permute(s), rate, q - 1, r);
      OutSoFarFirst(s, rate, q - 1, r);
      SqueezeFirst(s, rate, |OutSoFar(Permute(s), rate, q - 1, r)|);
    }
  }

  // ---------------------------------------------------------------------------
  // state
  // ---------------------------------------------------------------------------

  predicate RateInUse(rate: nat) { rate in {72, 104, 136, 144, 168} }

  class State {
    const a: array<Lane>         // the 25 lanes that are permuted
    const storage: array<Byte>
    var start: nat               // the slice buf is the window storage[start..start + len]
    var len: nat
    const rate: nat              // block length; the other lanes are the capacity
    const dsbyte: Byte           // what the padding starts with
    const outputLen: nat
    var squeezing: bool

    ghost var msg: seq<Byte>     // everything written since the last reset
    ghost var given: seq<Byte>   // everything read since then
    ghost var blocks: nat        // whole blocks among it

    ghost predicate Shape()
    {
      a.Length == 25 && storage.Length == MAX_RATE && RateInUse(rate) && a as object != storage
    }

    /** The state right after padding. */
    ghost function First(): (s: Lanes)
      requires Shape()
      reads this
    {
      Absorb(Zero(), Padded(msg, rate, dsbyte), rate)
    }

    ghost predicate Valid()
      reads this, a, storage
    {
      && Shape()
      && if squeezing then
           && start + len == rate && len > 0
           && a[..] == PermuteN(First(), blocks)
           && storage[..rate] == StateBytes(a[..])[..rate]
           && given == OutSoFar(First(), rate, blocks, start)
         else
           && start == 0 && len < rate && given == []
           && a[..] == Absorb(Zero(), msg, rate)
           && storage[..len] == Tail(msg, rate)
    }

    constructor (rate: nat, dsbyte: Byte, outputLen: nat)
      requires RateInUse(rate)
      ensures Valid() && !squeezing && msg == [] && fresh(a) && fresh(storage)
      ensures this.rate == rate && this.dsbyte == dsbyte && this.outputLen == outputLen
    {
      a := new Lane[25](_ => 0);
      storage := new Byte[MAX_RATE](_ => 0);
      start, len, squeezing := 0, 0, false;
      this.rate, this.dsbyte, this.outputLen := rate, dsbyte, outputLen;
      msg, given, blocks := [], [], 0;
      new;
      assert a[..] == Zero();
    }

    method Reset()
      requires Valid()
      modifies this, a
      ensures Valid() && !squeezing && msg == []
    {
      hide Absorb, Tail, PermuteN, OutBlocks, StateBytes, Padded;
      for i := 0 to 25
        modifies a
        invariant forall j | 0 <= j < i :: a[j] == 0
      {
        a[i] := 0;
      }
      squeezing := false;
      start, len := 0, 0;
      msg, given, blocks := [], [], 0;
      NothingAbsorbed(rate);
      assert a[..] == Zero() && storage[..0] == [];
    }

    /** xorIn, on a whole block. */
    method XorIn(buf: seq<Byte>)
      requires Shape() && |buf| == rate
      modifies a
      ensures a[..] == XorBlock(old(a[..]), buf)
    {
      UnalignedAgrees(rate);
      XorInUnaligned(a, buf);
      assert buf[..8 * Covered(|buf|)] == buf;
    }

    /** permute while absorbing: a full buffer goes into the state. */
    method PermuteAbsorbing()
      requires Shape() && start == 0 && len == rate
      modifies a, this`start, this`len
      ensures a[..] == Permute(XorBlock(old(a[..]), old(storage[..rate])))
      ensures start == 0 && len == 0
    {
      hide Permute, XorBlock;
      XorIn(storage[start..start + len]);
      start, len := 0, 0;
      KeccakF1600(a);
    }

    /** permute while squeezing: the buffer is refilled from the next state. */
    method PermuteSqueezing()
      requires Shape()
      modifies a, storage, this`start, this`len
      ensures a[..] == Permute(old(a[..]))
      ensures start == 0 && len == rate && storage[..rate] == StateBytes(a[..])[..rate]
    {
      hide Permute, StateBytes;
      KeccakF1600(a);
      start, len := 0, rate;
      ghost var s := a[..];
      CopyOutUnaligned(a, storage, rate);
      assert a[..] == s;
    }

    /** Appends chunk to the buffer; a full buffer is permuted away. */
    method Buffer(chunk: seq<Byte>)
      requires Valid() && !squeezing && len + |chunk| <= rate
      modifies this, a, storage
      ensures Valid() && !squeezing && msg == old(msg) + chunk
    {
      hide Absorb, Tail, Permute, XorBlock, PermuteN, OutBlocks, Padded;
      AbsorbChunk(Zero(), msg, chunk, rate);
      ghost var s, tail := a[..], Tail(msg, rate);
      forall i | 0 <= i < |chunk| {
        storage[len + i] := chunk[i];
      }
      len := len + |chunk|;
      msg := msg + chunk;
      assert storage[..len] == tail + chunk && a[..] == s;
      if len == rate {
        assert |tail + chunk| == rate && storage[..rate] == tail + chunk;
        PermuteAbsorbing();
        assert storage[..0] == [];
      }
    }

    /**
      Write: however a message is cut into writes, the state has absorbed the whole blocks of
      all that was written, and fewer than `rate` bytes wait in the buffer.
     */
    method Write(p: seq<Byte>) returns (written: nat)
      requires Valid() && !squeezing
      modifies this, a, storage
      ensures Valid() && !squeezing && msg == old(msg) + p && written == |p|
    {
      hide Absorb, Tail, Permute, XorBlock, PermuteN, OutBlocks, Padded;
      written := |p|;
      var rest := p;
      assert msg + rest == old(msg) + p;
      while |rest| > 0
        invariant Valid() && !squeezing && msg + rest == old(msg) + p
        decreases |rest|
      {
        var n := if len == 0 && |rest| >= rate then rate else Min(rate - len, |rest|);
        assert msg + rest == msg + rest[..n] + rest[n..];
        if len == 0 && |rest| >= rate {
          // the fast path skips the buffer
          assert Tail(msg, rate) == [] && [] + rest[..rate] == rest[..rate];
          AbsorbChunk(Zero(), msg, rest[..rate], rate);
          XorIn(rest[..rate]);
          KeccakF1600(a);
          msg := msg + rest[..rate];
          assert storage[..0] == [];
        } else {
          Buffer(rest[..n]);
        }
        rest := rest[n..];
      }
    }

    /** padAndPermute */
    method PadAndPermute()
      requires Valid() && !squeezing
      modifies this, a, storage
      ensures Valid() && squeezing && msg == old(msg) && given == []
    {
      hide Absorb, Tail, Permute, XorBlock, StateBytes, PadBytes, OutBlocks;
      ghost var tail, s := Tail(msg, rate), a[..];
      AbsorbPadding(Zero(), msg, rate, dsbyte);
      FillBlock();
      assert storage[..rate] == tail + PadBytes(|tail|, rate, dsbyte) && a[..] == s;
      PermuteAbsorbing();
      squeezing, blocks := true, 0;
      start, len := 0, rate;
      ghost var first := a[..];
      CopyOutUnaligned(a, storage, rate);
      assert a[..] == first;
      NothingOut(first, rate);
    }

    /** The padding behind the buffered bytes: domain byte, zeros, and the top bit of the last byte. */
    method FillBlock()
      requires Shape() && start == 0 && len < rate
      modifies this`len, storage
      ensures len == rate
      ensures storage[..rate] == old(storage[..len]) + PadBytes(old(len), rate, dsbyte)
    {
      hide PadBytes;
      var t := len;
      ghost var tail := storage[..t];
      storage[t] := dsbyte;
      for i := t + 1 to rate
        modifies storage
        invariant storage[..t] == tail && storage[t] == dsbyte
        invariant forall j | t < j < i :: storage[j] == 0
      {
        storage[i] := 0;
      }
      storage[rate - 1] := storage[rate - 1] ^ 0x80;
      len := rate;
      PaddedBlock(storage[..rate], tail, t, rate, dsbyte);
    }

    /** Moves the window past nn bytes; a drained window is refilled. */
    method Advance(nn: nat)
      requires Valid() && squeezing && nn <= len
      modifies this, a, storage
      ensures Valid() && squeezing && msg == old(msg)
      ensures given == old(given) + old(storage[start..start + nn])
    {
      hide Absorb, Padded, Permute, StateBytes, PermuteN, OutSoFar;
      ghost var chunk := storage[start..start + nn];
      assert chunk == storage[..rate][start..start + nn];
      OutStep(First(), rate, blocks, start, nn);
      given := given + chunk;
      start, len := start + nn, len - nn;
      if len == 0 {
        OutNextBlock(First(), rate, blocks);
        PermuteSqueezing();
        blocks := blocks + 1;
      }
    }

    /** One round of Read's loop: copies from the window to out[n..]. */
    method Drain(out: array<Byte>, n: nat) returns (nn: nat)
      requires Valid() && squeezing && n < out.Length && out != storage && out as object != a
      modifies this, a, storage, out
      ensures Valid() && squeezing && msg == old(msg)
      ensures 0 < nn && n + nn <= out.Length
      ensures given == old(given) + out[n..n + nn]
      ensures forall j | 0 <= j < n :: out[j] == old(out[j])
    {
      hide Absorb, Permute, StateBytes, PermuteN, OutBlocks, Padded;
      nn := Min(out.Length - n, len);
      CopyWindow(out, n, nn);
      ghost var chunk := out[n..n + nn];
      Advance(nn);
      assert out[n..n + nn] == chunk;
    }

    method CopyWindow(out: array<Byte>, n: nat, nn: nat)
      requires Shape() && out != storage && start + nn <= storage.Length && n + nn <= out.Length
      modifies out
      ensures out[n..n + nn] == storage[start..start + nn]
      ensures forall j | 0 <= j < n :: out[j] == old(out[j])
    {
      forall j | 0 <= j < nn {
        out[n + j] := storage[start + j];
      }
    }

    /** Read: the next out.Length bytes of the output, however the reads are cut. */
    method Read(out: array<Byte>) returns (n: nat)
      requires Valid() && out != storage && out as object != a
      modifies this, a, storage, out
      ensures Valid() && squeezing && msg == old(msg) && n == out.Length
      ensures given == old(given) + out[..]
      ensures given == Squeeze(First(), rate, |given|)
    {
      hide Valid, First, Squeeze;
      ValidBasics();
      if !squeezing {
        PadAndPermute();
      }
      n := 0;
      assert out[..0] == [];
      while n < out.Length
        invariant Valid() && squeezing && msg == old(msg) && n <= out.Length
        invariant given == old(given) + out[..n]
      {
        ghost var done := out[..n];
        var nn := Drain(out, n);
        assert out[..n + nn] == done + out[n..n + nn];
        n := n + nn;
      }
      assert out[..out.Length] == out[..];
      GivenIsStream();
    }

    lemma GivenIsStream()
      requires Valid() && squeezing
      ensures given == Squeeze(First(), rate, |given|)
    {
      hide OutSoFar, Squeeze, StateBytes, PermuteN, Absorb, Padded;
      SqueezePosition(First(), rate, blocks, start);
    }

    lemma ValidBasics()
      requires Valid()
      ensures Shape() && (!squeezing ==> given == [])
    {}

    /**
      clone: a copy that shares nothing, or null where slicing the copy's storage panics. The copy
      of a squeezing state does not resume where the original stands but MAX_RATE - rate bytes
      earlier, because the capacity of a slice of storage is counted from MAX_RATE, not from rate.
     */
    method Clone() returns (c: State?)
      requires Valid()
      ensures c == null <==> squeezing && start < MAX_RATE - rate
      ensures c != null ==>
        && fresh(c) && fresh(c.a) && fresh(c.storage) && c.Valid() && c.squeezing == squeezing
        && c.msg == msg && c.rate == rate && c.dsbyte == dsbyte && c.outputLen == outputLen
        && (!squeezing ==> c.given == [])
        && (squeezing ==> MAX_RATE - rate <= |given| && c.given == given[..|given| - (MAX_RATE - rate)])
    {
      hide Absorb, Tail, Padded, PermuteN, OutBlocks, StateBytes, OutSoFar;
      c := new State(rate, dsbyte, outputLen);
      CopyInto(c);
      if !squeezing {
        c.msg, c.len := msg, len;
        assert c.storage[..len] == storage[..len];
      } else {
        var ok := CopyWindowInto(c);
        if !ok { return null; }
      }
    }

    /** The window of a squeezing copy, placed by the capacity of the original's. */
    method CopyWindowInto(c: State) returns (ok: bool)
      requires Valid() && squeezing && c.Shape() && c != this && c.rate == rate && c.dsbyte == dsbyte
      requires c.a[..] == a[..] && c.storage[..] == storage[..]
      modifies c
      ensures ok <==> start >= MAX_RATE - rate
      ensures ok ==> c.Valid() && c.squeezing && c.msg == msg
      ensures ok ==> MAX_RATE - rate <= |given| && c.given == given[..|given| - (MAX_RATE - rate)]
    {
      hide Absorb, Tail, Padded, PermuteN, StateBytes, OutSoFar;
      var back := MAX_RATE - start;    // the capacity of the window
      if rate < back { return false; }
      c.squeezing, c.msg, c.blocks := true, msg, blocks;
      c.start, c.len := rate - back, back;
      OutBack(First(), rate, blocks, start, c.start);
      c.given := given[..|given| - (start - c.start)];
      assert c.storage[..rate] == storage[..rate];
      return true;
    }

    method CopyInto(c: State)
      requires Shape() && c.Shape() && c.a != a && c.storage != storage && c.a as object != storage && c.storage as object != a
      modifies c.a, c.storage
      ensures c.a[..] == a[..] && c.storage[..] == storage[..]
    {
      forall i | 0 <= i < 25 { c.a[i] := a[i]; }
      forall i | 0 <= i < MAX_RATE { c.storage[i] := storage[i]; }
    }

    /** The position in the output determines the window, and so whether and where a clone resumes. */
    lemma WindowAt()
      requires Valid() && squeezing
      ensures |given| == blocks * rate + start && start < rate
    {
      hide Absorb, Padded, PermuteN, StateBytes;
      OutLength(First(), rate, blocks);
    }

    /** The last outputLen bytes of the stream that a clone reads. */
    ghost function Digest(): (out: seq<Byte>)
      requires Valid() && !(squeezing && start < MAX_RATE - rate)
      reads this, a, storage
    {
      if !squeezing then SpongeOutput(msg, rate, dsbyte, outputLen)
      else
        WindowAt();
        var from := |given| - (MAX_RATE - rate);
        Squeeze(First(), rate, from + outputLen)[from..]
    }

    /**
      Sum: appends what a clone reads next: of an absorbing state the digest of everything written
      so far. The state itself is not touched, so later writes and sums go on as if nothing had
      happened. None where cloning panics.
     */
    method Sum(in_: seq<Byte>) returns (r: Option<seq<Byte>>)
      requires Valid()
      ensures r == None <==> squeezing && start < MAX_RATE - rate
      ensures r.Some? ==> r.value == in_ + Digest()
      ensures !squeezing ==> r == Some(in_ + SpongeOutput(msg, rate, dsbyte, outputLen))
    {
      hide Absorb, Tail, Padded, PermuteN, OutBlocks, StateBytes, Squeeze, OutSoFar;
      var dup := Clone();
      if dup == null { return None; }
      var hash := new Byte[dup.outputLen];
      ghost var before := dup.given;
      var n := dup.Read(hash);
      assert (before + hash[..])[|before|..] == hash[..];
      r := Some(in_ + hash[..]);
    }
  }

  /** A clone taken while squeezing resumes the stream where the original stands exactly if the rate is the largest. */
  method CloneResumes(d: State) returns (c: State?)
    requires d.Valid() && d.squeezing
    ensures c == null <==> |d.given| % d.rate < MAX_RATE - d.rate
    ensures c != null ==> c.Valid() && c.squeezing && c.msg == d.msg && (c.given == d.given <==> d.rate == MAX_RATE)
  {
    hide State.Valid, State.First;
    d.ValidBasics();
    d.WindowAt();
    Remainder(d.blocks, d.rate, d.start);
    c := d.Clone();
  }

  lemma Remainder(q: nat, m: nat, r: nat)
    requires r < m
    ensures (q * m + r) % m == r
  {
    var x := q * m + r;
    assert x == x / m * m + x % m;
    if x / m < q { Scaled(q - x / m, m); } else if x / m > q { Scaled(x / m - q, m); }
    assert (q - x / m) * m == x % m - r;
  }

  lemma Scaled(d: nat, m: nat)
    requires d >= 1
    ensures d * m >= m
  {}

  /** SHAKE256 after one byte of output cannot be cloned. */
  method Shake256Clone(m: seq<Byte>) returns (c: State?)
    ensures c == null
  {
    hide Squeeze, State.Valid, State.First;
    var d := new State(136, 0x1f, 0);
    var n := d.Write(m);
    var out := new Byte[1];
    d.ValidBasics();
    n := d.Read(out);
    assert |d.given| == 1;
    c := CloneResumes(d);
  }

  lemma {:induction false} OutLength(s: Lanes, rate: nat, q: nat)
    requires rate <= 200
    ensures |OutBlocks(s, rate, q)| == q * rate
  {
    hide StateBytes, PermuteN;
    if q > 0 { OutLength(s, rate, q - 1); }
  }

  /** Fewer bytes of the current block. */
  lemma OutBack(s: Lanes, rate: nat, q: nat, r: nat, less: nat)
    requires less <= r <= rate <= 200
    ensures |OutSoFar(s, rate, q, r)| >= r
    ensures OutSoFar(s, rate, q, less) == OutSoFar(s, rate, q, r)[..|OutSoFar(s, rate, q, r)| - (r - less)]
  {
    hide StateBytes, PermuteN, OutBlocks;
  }

  lemma PaddedBlock(b: seq<Byte>, tail: seq<Byte>, t: nat, rate: nat, ds: Byte)
    requires |b| == rate && t < rate && b[..t] == tail
    requires forall j | t <= j < rate ::
               b[j] == (if j == t then ds else 0) ^ (if j == rate - 1 then 0x80 else 0)
    ensures b == tail + PadBytes(t, rate, ds)
  {
    forall j | t <= j < rate
      ensures b[j] == PadBytes(t, rate, ds)[j - t]
    {
    }
    assert b == b[..t] + b[t..];
  }

  lemma NothingOut(s: Lanes, rate: nat)
    requires rate <= 200
    ensures OutSoFar(s, rate, 0, 0) == [] && PermuteN(s, 0) == s
  {}

  /** nn more bytes of the current block. */
  lemma OutStep(s: Lanes, rate: nat, q: nat, r: nat, nn: nat)
    requires r + nn <= rate <= 200
    ensures OutSoFar(s, rate, q, r) + StateBytes(PermuteN(s, q))[..rate][r..r + nn] == OutSoFar(s, rate, q, r + nn)
  {
    hide OutBlocks, PermuteN, StateBytes;
    var bytes := StateBytes(PermuteN(s, q));
    assert bytes[..r] + bytes[..rate][r..r + nn] == bytes[..r + nn];
  }

  lemma OutNextBlock(s: Lanes, rate: nat, q: nat)
    requires rate <= 200
    ensures OutSoFar(s, rate, q, rate) == OutSoFar(s, rate, q + 1, 0)
    ensures Permute(PermuteN(s, q)) == PermuteN(s, q + 1)
  {
    hide Permute, StateBytes;
    assert StateBytes(PermuteN(s, q + 1))[..0] == [];
  }

  // ---------------------------------------------------------------------------
  // Whole runs
  // ---------------------------------------------------------------------------

  /** A digest after every write: each is that of everything written up to there, however it was cut. */
  method RunningSums(chunks: seq<seq<Byte>>, rate: nat, ds: Byte, outputLen: nat) returns (sums: seq<seq<Byte>>)
    requires RateInUse(rate)
    ensures |sums| == |chunks|
    ensures forall i | 0 <= i < |chunks| :: sums[i] == SpongeOutput(Concat(chunks[..i + 1]), rate, ds, outputLen)
  {
    hide SpongeOutput, Absorb, Tail, Permute, StateBytes, PermuteN, OutBlocks, Padded, Concat;
    var d := new State(rate, ds, outputLen);
    sums := [];
    assert chunks[..0] == [];
    ConcatNone<Byte>();
    for i := 0 to |chunks|
      invariant d.Valid() && !d.squeezing && fresh(d) && fresh(d.a) && fresh(d.storage)
      invariant d.rate == rate && d.dsbyte == ds && d.outputLen == outputLen
      invariant d.msg == Concat(chunks[..i]) && |sums| == i
      invariant forall j | 0 <= j < i :: sums[j] == SpongeOutput(Concat(chunks[..j + 1]), rate, ds, outputLen)
    {
      ConcatNext(chunks, i);
      var n := d.Write(chunks[i]);
      var h := d.Sum([]);
      assert [] + SpongeOutput(d.msg, rate, ds, outputLen) == SpongeOutput(d.msg, rate, ds, outputLen);
      sums := sums + [h.value];
    }
  }

  /** Any partition of the output across reads yields the one output stream. */
  method ReadPieces(m: seq<Byte>, sizes: seq<nat>, rate: nat, ds: Byte) returns (outs: seq<seq<Byte>>)
    requires RateInUse(rate)
    ensures |outs| == |sizes| && forall i | 0 <= i < |sizes| :: |outs[i]| == sizes[i]
    ensures Concat(outs) == SpongeOutput(m, rate, ds, |Concat(outs)|)
  {
    hide Absorb, Tail, Permute, StateBytes, PermuteN, OutBlocks, Padded, Concat;
    var d := new State(rate, ds, 0);
    var n := d.Write(m);
    assert [] + m == m;
    outs := [];
    ConcatNone<Byte>();
    SqueezeNone(d.First(), rate);
    for i := 0 to |sizes|
      invariant d.Valid() && fresh(d) && fresh(d.a) && fresh(d.storage)
      invariant d.rate == rate && d.dsbyte == ds && d.msg == m && |outs| == i
      invariant forall j | 0 <= j < i :: |outs[j]| == sizes[j]
      invariant d.given == Concat(outs) == Squeeze(d.First(), rate, |Concat(outs)|)
    {
      var out := new Byte[sizes[i]];
      n := d.Read(out);
      ghost var was := outs;
      outs := outs + [out[..]];
      ConcatNext(outs, i);
      assert outs[..i] == was && outs[..i + 1] == outs;
    }
  }

  lemma SqueezeNone(s: Lanes, rate: nat)
    requires 0 < rate <= 200
    ensures Squeeze(s, rate, 0) == []
  {}
}
