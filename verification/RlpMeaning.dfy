/**
  What the stream operations mean in terms of encodings: each one succeeds exactly on the
  canonical encoding of a value of its kind lying within the limits, and consumes just that.
 */
module RlpMeaning {
  import opened Basics
  import opened RlpSpec
  import opened RlpStream

  /** The encoding e comes next and lies within the limits. */
  ghost predicate Has(s: StreamState, e: seq<byte>)
  {
    CanTake(s, |e|) && e <= s.unread
  }

  /** Exactly e was consumed, and the stream is ready for the next value. */
  ghost predicate Took(s: StreamState, s1: StreamState, e: seq<byte>)
  {
    Has(s, e) && Advanced(s, s1, |e|) && Inv(s1) && s1.kind == None
  }

  ghost predicate Ready(s: StreamState) { Inv(s) && s.kind == None }

  /** Calling Kind first changes nothing: the answer is cached. */
  lemma KindIsCached(s: StreamState)
    requires Inv(s) && NextKind(s).1.err == None
    ensures NextKind(NextKind(s).0) == NextKind(s)
  {
    hide Inv, ReadKind;
    NextKindForm(s);
  }

  lemma HeadThenPayload(s: StreamState, s1: StreamState, s2: StreamState, h: seq<byte>, p: seq<byte>)
    requires Advanced(s, s1, |h|) && h <= s.unread
    requires Advanced(s1, s2, |p|) && p <= s1.unread
    ensures Has(s, h + p) && Advanced(s, s2, |h + p|)
  {
    hide SetTosPos, Tos;
    AdvancedTwice(s, s1, s2, |h|, |p|);
    assert s.unread[..|h| + |p|] == s.unread[..|h|] + s.unread[|h|..][..|p|];
  }

  lemma HasPayload(s: StreamState, s1: StreamState, h: seq<byte>, p: seq<byte>)
    requires Has(s, h + p) && Advanced(s, s1, |h|)
    ensures Has(s1, p)
  {
    CanTakeMore(s, s1, |h|, |p|);
    assert s.unread[|h|..|h + p|] == s.unread[..|h + p|][|h|..];
  }

  lemma HasHead(s: StreamState, h: seq<byte>, p: seq<byte>)
    requires Has(s, h + p)
    ensures h <= s.unread && InLimit(s, |h| + |p|)
  {
    assert s.unread[..|h|] == s.unread[..|h + p|][..|h|];
  }

  // ---------------------------------------------------------------------------
  // Strings
  // ---------------------------------------------------------------------------

  lemma BytesSound(s: StreamState)
    requires Ready(s)
    ensures var (s1, r) := BytesStep(s);
            && Inv(s1)
            && (r.Ok? ==> Took(s, s1, Enc(Str(r.value))))
            && (r == Err(EOL) <==> AtEnd(s))
  {
    hide Inv, NextKind, ReadFull, AtEnd, BigEndian;
    StepInv(s, OpBytes);
    NextKindForm(s);
    var (s1, k) := NextKind(s);
    if k.err == None {
      ReadAhead(s1);
      if BytesStep(s).1.Ok? {
        if k.kind == Byte {
          KindDisarmed(s1);
          ByteTaken(s, s1, s1.(kind := None));
        } else {
          StringTaken(s, s1, k.size);
        }
      }
    }
  }

  lemma KindDisarmed(s: StreamState)
    requires Inv(s)
    ensures Inv(s.(kind := None))
  {}

  lemma ByteTaken(s: StreamState, s1: StreamState, s2: StreamState)
    requires Advanced(s, s1, 1) && s.unread[..1] == [s1.byteval] && s1.byteval < 0x80
    requires s2 == s1.(kind := None) && Inv(s2)
    ensures Took(s, s2, Enc(Str([s1.byteval])))
  {
    assert Enc(Str([s1.byteval])) == [s1.byteval];
  }

  lemma StringTaken(s: StreamState, s1: StreamState, n: nat)
    requires Inv(s1) && n < U64
    requires Advanced(s, s1, |StringHeader(n)|) && StringHeader(n) <= s.unread
    ensures var (s2, r) := ReadFull(s1, n);
            r.Ok? && !IsByte(r.value) ==> Took(s, s2, Enc(Str(r.value))) && r.value == s1.unread[..n]
  {
    hide Nested, SumPos, OuterUnread, ReadFull, StringHeader;
    ReadFullForm(s1, n);
    var (s2, r) := ReadFull(s1, n);
    if r.Ok? && !IsByte(r.value) {
      HeadThenPayload(s, s1, s2, StringHeader(n), r.value);
    }
  }

  lemma BytesComplete(s: StreamState, b: seq<byte>)
    requires Ready(s) && Fits(Str(b)) && Has(s, Enc(Str(b)))
    ensures BytesStep(s).1 == Ok(b)
  {
    hide Inv, Advanced, CanTake, NextKind, ReadFull, AtEnd, BigEndian, IsHead, StringHeader;
    var x := Str(b);
    EncSplit(x);
    HasHead(s, Head(x), Payload(x));
    NextKindComplete(s, Head(x), KindOf(x), |Payload(x)|);
    var s1 := NextKind(s).0;
    if !IsByte(b) {
      HasPayload(s, s1, Head(x), b);
      PayloadRead(s1, b);
    }
  }

  lemma PayloadRead(s: StreamState, b: seq<byte>)
    requires Inv(s) && Has(s, b) && |b| < U64
    ensures ReadFull(s, |b|).1 == Ok(b)
  {
    ReadFullForm(s, |b|);
    assert s.unread[..|b|] == b;
  }

  // ---------------------------------------------------------------------------
  // Unsigned integers
  // ---------------------------------------------------------------------------

  predicate UintBits(bits: nat) { bits in {8, 16, 32, 64} }

  lemma UintSound(s: StreamState, bits: nat)
    requires Ready(s) && UintBits(bits)
    ensures var (s1, r) := UintStep(s, bits);
            && Inv(s1)
            && (r.Ok? ==> r.value < Pow256(bits / 8) && Took(s, s1, Enc(Str(BigEndian(r.value)))))
            && (r == Err(EOL) <==> AtEnd(s))
  {
    hide Inv, NextKind, ReadUint, AtEnd, BigEndian, Enc, Pow256, Took;
    StepInv(s, OpUint(bits));
    NextKindForm(s);
    var (s1, k) := NextKind(s);
    if k.err == None {
      if k.kind == Byte {
        KindDisarmed(s1);
        ByteTaken(s, s1, s1.(kind := None));
        SmallBigEndian(s1.byteval, bits / 8);
      } else if k.kind == String && k.size <= bits / 8 {
        UintErrors(s1, k.size);
        UintTaken(s, s1, k.size, bits / 8);
      }
    }
  }

  lemma UintErrors(s: StreamState, n: nat)
    requires Inv(s) && n <= 8
    ensures ReadUint(s, n).1 != Err(EOL)
  {
    ReadUintForm(s, n);
    ReadFullForm(s, n);
  }

  lemma SmallBigEndian(v: nat, k: nat)
    requires v < 0x80 && k >= 1
    ensures v > 0 ==> BigEndian(v) == [v]
    ensures v < Pow256(k)
  {
    PowMonotone(1, k);
    assert Pow256(1) == 256;
    assert v > 0 ==> BigEndian(v / 256) == [];
  }

  /** Canonical integer bytes are the shortest representation of their value. */
  lemma UintBytesCanonical(b: seq<byte>, k: nat)
    requires |b| <= k <= 8 && UintBytes(b) && (|b| > 0 ==> BeValue(b) >= 128)
    ensures b == BigEndian(BeValue(b)) && !IsByte(b) && BeValue(b) < Pow256(k)
  {
    if |b| == 1 { SingleByte(b); }
    BeCanonical(b);
    BeBound(b);
    PowMonotone(|b|, k);
  }

  lemma UintTaken(s: StreamState, s1: StreamState, n: nat, k: nat)
    requires Inv(s1) && n <= k <= 8
    requires Advanced(s, s1, |StringHeader(n)|) && StringHeader(n) <= s.unread
    ensures var (s2, r) := ReadUint(s1, n);
            r.Ok? && (n > 0 ==> r.value >= 128) ==>
              r.value < Pow256(k) && Took(s, s2, Enc(Str(BigEndian(r.value))))
  {
    hide Nested, SumPos, OuterUnread, ReadUint, StringHeader, BigEndian, BeValue, Pow256;
    ReadUintForm(s1, n);
    var (s2, r) := ReadUint(s1, n);
    if r.Ok? && (n > 0 ==> r.value >= 128) {
      var b := s1.unread[..n];
      UintBytesCanonical(b, k);
      HeadThenPayload(s, s1, s2, StringHeader(n), b);
    }
  }

  lemma UintComplete(s: StreamState, bits: nat, v: nat)
    requires Ready(s) && UintBits(bits) && v < Pow256(bits / 8) && Has(s, Enc(Str(BigEndian(v))))
    ensures UintStep(s, bits).1 == Ok(v)
  {
    hide Inv, NextKind, ReadUint, BigEndian, IsHead, StringHeader, Pow256, Enc, BeValue, Advanced, CanTake;
    var b := BigEndian(v);
    var x := Str(b);
    BigEndianForm(v, bits / 8);
    EncSplit(x);
    ShortStringFits(b);
    HasHead(s, Head(x), Payload(x));
    NextKindComplete(s, Head(x), KindOf(x), |Payload(x)|);
    var s1 := NextKind(s).0;
    if !IsByte(b) {
      HasPayload(s, s1, Head(x), b);
      UintRead(s1, b);
    }
  }

  lemma ShortStringFits(b: seq<byte>)
    requires |b| <= 8
    ensures Fits(Str(b))
  {}

  lemma BigEndianForm(v: nat, k: nat)
    requires v < Pow256(k) && k <= 8
    ensures var b := BigEndian(v);
            && |b| <= k && BeValue(b) == v && UintBytes(b)
            && (IsByte(b) ==> b == [v] && v > 0)
            && (!IsByte(b) && |b| > 0 ==> v >= 128)
  {
    BeLength(v, k);
    BeRoundTrip(v);
    if |BigEndian(v)| == 1 { SingleByte(BigEndian(v)); }
    if v != 0 && v < 128 { SmallBigEndian(v, 1); }
  }

  lemma UintRead(s: StreamState, b: seq<byte>)
    requires Inv(s) && Has(s, b) && |b| <= 8 && UintBytes(b)
    ensures ReadUint(s, |b|).1 == Ok(BeValue(b))
  {
    hide Nested, SumPos, OuterUnread, ReadUint, BeValue;
    ReadUintForm(s, |b|);
    assert s.unread[..|b|] == b;
  }

  // ---------------------------------------------------------------------------
  // Byte arrays
  // ---------------------------------------------------------------------------

  /** An array returned was encoded in front, and it was consumed, except a zero byte taken as a [1]byte. */
  lemma ByteArraySound(s: StreamState, n: nat)
    requires Ready(s)
    ensures var (s1, r) := ByteArrayStep(s, n);
            && Inv(s1)
            && (r.Ok? ==> |r.value| == n && Has(s, Enc(Str(r.value))))
            && (r.Ok? && r.value != [0] ==> Took(s, s1, Enc(Str(r.value))))
            && (r == Err(EOL) <==> AtEnd(s))
  {
    hide Inv, NextKind, ReadFull, AtEnd, BigEndian, Took;
    NextKindForm(s);
    var (s1, k) := NextKind(s);
    if k.err == None {
      ReadAhead(s1);
      if k.kind == String && k.size == n {
        StringTaken(s, s1, k.size);
        if ReadFull(s1, n).1.Ok? { TookHas(s, ReadFull(s1, n).0, Enc(Str(ReadFull(s1, n).1.value))); }
      } else if k.kind == Byte && n == 1 {
        ByteAsArray(s);
      }
    }
  }

  lemma TookHas(s: StreamState, s1: StreamState, e: seq<byte>)
    ensures Took(s, s1, e) ==> Has(s, e)
  {}

  lemma ByteAsArray(s: StreamState)
    requires Ready(s) && NextKind(s).1.err == None && NextKind(s).1.kind == Byte
    ensures var (s1, r) := ByteArrayStep(s, 1); var b := NextKind(s).0.byteval;
            && r == Ok([b]) && Enc(Str([b])) == [b] && Has(s, [b]) && Inv(s1)
            && (b != 0 ==> Took(s, s1, [b]))
  {
    hide Inv, NextKind, Took, Advanced, BigEndian;
    NextKindForm(s);
    KindIsCached(s);
    var s1 := NextKind(s).0;
    KindDisarmed(s1);
    ByteTaken(s, s1, s1.(kind := None));
    TookHas(s, s1.(kind := None), [s1.byteval]);
  }

  lemma ByteArrayComplete(s: StreamState, b: seq<byte>)
    requires Ready(s) && Fits(Str(b)) && Has(s, Enc(Str(b)))
    ensures ByteArrayStep(s, |b|).1 == Ok(b)
  {
    hide Inv, NextKind, ReadFull, BigEndian, IsHead, StringHeader, Advanced, CanTake;
    var x := Str(b);
    EncSplit(x);
    HasHead(s, Head(x), Payload(x));
    NextKindComplete(s, Head(x), KindOf(x), |Payload(x)|);
    if IsByte(b) {
      ByteAsArray(s);
    } else {
      var s1 := NextKind(s).0;
      HasPayload(s, s1, Head(x), b);
      PayloadRead(s1, b);
    }
  }

  /**
    A successful decodeByteArray leaves the stream ready for the next value exactly unless it
    decoded a zero byte into a [1]byte: then the same byte is still ahead.
   */
  lemma ByteArrayStaysArmed(s: StreamState, n: nat)
    requires Ready(s) && ByteArrayStep(s, n).1.Ok?
    ensures var (s1, r) := ByteArrayStep(s, n);
            && (s1.kind.Some? <==> n == 1 && Has(s, [0]))
            && (s1.kind.Some? ==> r == Ok([0]) && ByteArrayStep(s1, 1) == (s1, Ok([0])))
  {
    hide Inv, NextKind, ReadFull, ReadUint, BigEndian;
    NextKindForm(s);
    var (s1, k) := NextKind(s);
    ReadAhead(s1);
    KindIsCached(s);
    if Has(s, [0]) {
      ZeroAhead(s);
    }
  }

  /**
    A list holding one zero byte: decoded as a [1]byte, the byte is ahead again and again, past
    the end of the list, and the list can be closed after any number of them.
   */
  lemma ZeroByteAgain()
    ensures var s := ListStart(NewStream([0xC1, 0x00], Some(2))).0; var (s1, r) := ByteArrayStep(s, 1);
            && r == Ok([0]) && s1.unread == [] && AtEnd(s1) && s1.kind == Some(Byte)
            && ByteArrayStep(s1, 1) == (s1, Ok([0])) && ListEnd(s1).1 == None
  {
    var s0 := NewStream([0xC1, 0x00], Some(2));
    var s := StreamState([0x00], 1, true, None, 0, 0, None, [ListPos(0, 1)]);
    assert ListStart(s0).0 == s;
    assert SetTosPos(s, 1).stack == [ListPos(1, 1)];
    assert WillRead(s, 1) == (StreamState([0x00], 0, true, None, 0, 0, None, [ListPos(1, 1)]), None);
    assert s.unread[1..] == [] && s.unread[..1] == [0];
    assert ReadFull(s, 1) == (StreamState([], 0, true, None, 0, 0, None, [ListPos(1, 1)]), Ok([0]));
    assert NextKind(s) == (StreamState([], 0, true, Some(Byte), 0, 0, None, [ListPos(1, 1)]), KindAhead(Byte, 0, None));
  }

  lemma ZeroAhead(s: StreamState)
    requires Ready(s) && Has(s, [0])
    ensures NextKind(s).1 == KindAhead(Byte, 0, None) && NextKind(s).0.byteval == 0
  {
    NextKindComplete(s, [0], Byte, 0);
  }

  // ---------------------------------------------------------------------------
  // Lists
  // ---------------------------------------------------------------------------

  /** Bytes left in the innermost list. */
  ghost function Left(s: StreamState): (n: int)
    requires s.stack != []
  {
    Tos(s).size - Tos(s).pos
  }

  /** s1 is s inside the list whose header was just consumed. */
  ghost predicate Entered(s: StreamState, s1: StreamState, size: nat)
  {
    exists s0: StreamState ::
      && Advanced(s, s0, |ListHeader(size)|) && ListHeader(size) <= s.unread && InLimit(s0, size) && Inv(s0)
      && s1.unread == s0.unread && s1.limited == s0.limited && s1.remaining == s0.remaining
      && s1.stack == s0.stack + [ListPos(0, size)]
  }

  lemma ListStartSound(s: StreamState)
    requires Ready(s)
    ensures var (s1, r) := ListStart(s);
            && Inv(s1)
            && (r.Ok? ==> Ready(s1) && Entered(s, s1, r.value) && s1.stack != [] && Left(s1) == r.value < U64)
            && (r == Err(EOL) <==> AtEnd(s))
  {
    hide Nested, SumPos, OuterUnread, NextKind, AtEnd, ListHeader;
    StepInv(s, OpList);
    NextKindForm(s);
    var (s0, k) := NextKind(s);
    if k.err == None && k.kind == ListKind {
      assert Entered(s, ListStart(s).0, k.size) by {
        assert Advanced(s, s0, |ListHeader(k.size)|) && InLimit(s0, k.size);
      }
    }
  }

  lemma ListStartComplete(s: StreamState, p: seq<byte>)
    requires Ready(s) && |ListHeader(|p|) + p| < U64 && Has(s, ListHeader(|p|) + p)
    ensures var (s1, r) := ListStart(s); r == Ok(|p|) && Has(s1, p) && s1.stack != [] && Left(s1) == |p|
  {
    hide Nested, SumPos, OuterUnread, NextKind, ListHeader;
    var h := ListHeader(|p|);
    HasHead(s, h, p);
    NextKindComplete(s, h, ListKind, |p|);
    HasPayload(s, NextKind(s).0, h, p);
  }

  /** Consuming the payload and closing the list consumes the list as one value. */
  lemma ListEndSound(s: StreamState, s1: StreamState, s2: StreamState, p: seq<byte>)
    requires Entered(s, s1, |p|) && Took(s1, s2, p)
    ensures var (s3, err) := ListEnd(s2); err == None && Took(s, s3, ListHeader(|p|) + p)
  {
    hide Nested, SumPos, OuterUnread, ListHeader, Add64;
    var h := ListHeader(|p|);
    var s0: StreamState :|
      && Advanced(s, s0, |h|) && h <= s.unread && InLimit(s0, |p|) && Inv(s0)
      && s1.unread == s0.unread && s1.limited == s0.limited && s1.remaining == s0.remaining
      && s1.stack == s0.stack + [ListPos(0, |p|)];
    StepInv(s2, OpListEnd);
    var s3 := ListEnd(s2).0;
    ListClosed(s0, s1, s2, |p|);
    HeadThenPayload(s, s0, s3, h, p);
  }

  lemma ListClosed(s0: StreamState, s1: StreamState, s2: StreamState, n: nat)
    requires InLimit(s0, n) && Inv(s0)
    requires s1.unread == s0.unread && s1.limited == s0.limited && s1.remaining == s0.remaining
    requires s1.stack == s0.stack + [ListPos(0, n)]
    requires Advanced(s1, s2, n)
    ensures var (s3, err) := ListEnd(s2); err == None && Advanced(s0, s3, n) && s3.kind == None
  {
    hide SumPos, OuterUnread, Add64, Inv, Nested;
    assert s2.stack == s0.stack + [ListPos(n, n)];
    assert s2.stack[..|s2.stack| - 1] == s0.stack;
    AdvancedInv(s0, n);
    if s0.stack != [] {
      NoWrap(Tos(s0).pos, n);
    }
  }

  /**
    The values xs decoded so far are a prefix of any list ys that fills the innermost list
    exactly; unless the end is reached, the next element of ys comes next.
   */
  lemma DecodedIsPrefix(s: StreamState, t: StreamState, xs: seq<Item>, ys: seq<Item>)
    requires s.stack != [] && Took(s, t, EncAll(xs))
    requires Has(s, EncAll(ys)) && |EncAll(ys)| == Left(s) < U64
    ensures xs <= ys
    ensures AtEnd(t) <==> |xs| == |ys|
    ensures |xs| < |ys| ==> Has(t, Enc(ys[|xs|])) && Fits(ys[|xs|])
  {
    hide Inv, Enc, EncAll, Advanced, CanTake, Tos;
    var a, b := EncAll(xs), EncAll(ys);
    TookLeft(s, t, a);
    var r := PrefixRest(s.unread, a, b);
    EncAllPrefix(xs, r, ys);
    EncAllCons(ys[|xs|..]);
    HasPayload(s, t, a, r);
    if |xs| < |ys| {
      HasPrefix(t, Enc(ys[|xs|]), EncAll(ys[|xs|..][1..]));
    }
  }

  lemma TookLeft(s: StreamState, t: StreamState, e: seq<byte>)
    requires s.stack != [] && Took(s, t, e)
    ensures t.stack != [] && Left(t) == Left(s) - |e| && Left(t) >= 0
  {}

  lemma PrefixRest(w: seq<byte>, a: seq<byte>, b: seq<byte>) returns (r: seq<byte>)
    requires a <= w && b <= w && |a| <= |b|
    ensures a + r == b
  {
    r := b[|a|..];
    assert a == w[..|a|] && b == w[..|b|];
  }

  lemma HasPrefix(s: StreamState, e: seq<byte>, q: seq<byte>)
    requires Has(s, e + q)
    ensures Has(s, e)
  {
    HasHead(s, e, q);
  }
}
