/**
  Entry points of rlp/encode.go and the resumable `encReader`: however its output is cut into
  reads, the pieces are those of the one encoding.
 */
module RlpReader {
  import opened Basics
  import opened RlpSpec
  import opened RlpTypes
  import opened RlpEncode

  /** EncodeToBytes */
  method EncodeToBytes(v: Value) returns (r: Result<seq<byte>>)
    requires GoValue(v) && Fits(ToItem(v))
    ensures r == if Writable(v) then Ok(Enc(ToItem(v))) else Err(NegativeBigInt)
  {
    var eb := new EncBuf();
    var err := Fill(eb, v);
    if err != None {
      return Err(err.value);
    }
    var out := eb.ToBytes();
    r := Ok(out[..]);
  }

  /** Encode to an io.Writer with room for `room` bytes. */
  method Encode(v: Value, room: nat) returns (r: Result<seq<byte>>, ok: bool)
    requires GoValue(v) && Fits(ToItem(v))
    ensures !Writable(v) ==> r == Err(NegativeBigInt)
    ensures Writable(v) ==> var e := Enc(ToItem(v)); r == Ok(e[..Min(|e|, room)]) && (ok <==> |e| <= room)
  {
    var eb := new EncBuf();
    var err := Fill(eb, v);
    ok := false;
    if err != None {
      return Err(err.value), ok;
    }
    var out := new Sink(room);
    ok := eb.ToWriter(out);
    ghost var e := Enc(ToItem(v));
    assert [] + e[..Min(|e|, room)] == e[..Min(|e|, room)];
    r := Ok(out.data);
  }

  /** Encode to an io.Writer that takes everything: the writes it receives, one after the other. */
  method EncodeWrites(v: Value) returns (r: Result<seq<seq<byte>>>)
    requires GoValue(v) && Fits(ToItem(v))
    ensures !Writable(v) ==> r == Err(NegativeBigInt)
    ensures Writable(v) ==> r.Ok? && Concat(r.value) == Enc(ToItem(v))
  {
    var eb := new EncBuf();
    var err := Fill(eb, v);
    if err != None {
      return Err(err.value);
    }
    var out := new Sink(eb.Size());
    var ok := eb.ToWriter(out);
    ghost var e := Enc(ToItem(v));
    assert [] + e[..|e|] == e;
    r := Ok(out.writes);
  }

  /** reset and encode: afterwards the buffer splices to the encoding and knows its exact size. */
  method Fill(eb: EncBuf, v: Value) returns (err: Option<Error>)
    requires eb.Valid() && GoValue(v) && Fits(ToItem(v))
    modifies eb, eb.sizebuf
    ensures err == if Writable(v) then None else Some(NegativeBigInt)
    ensures err == None ==>
              && GoodHeads(eb.str, eb.lheads, 0)
              && Splice(eb.str, eb.lheads, 0) == Enc(ToItem(v))
              && eb.Size() == |Enc(ToItem(v))|
  {
    hide Splice, GoodHeads, Enc, ToItem, Flat, Heads, HeadBytes, FlatAll, HeadsAll, HeadBytesAll;
    ghost var x := ToItem(v);
    eb.Reset();
    label start:
    err := eb.WriteValue(v);
    if err == None {
      assert eb.Wrote@start([x]);
      WroteOne(x, 0);
      FlatSize(x);
      SpliceWhole(x);
      assert [] + Flat(x) == Flat(x) && [] + Heads(x, 0) == Heads(x, 0);
    }
  }

  /** A non-empty slice: of the string data, or of the header in the auxiliary buffer. */
  datatype Piece = StrPiece(lo: nat, hi: nat) | HeadPiece(lo: nat, hi: nat)

  class EncReader {
    var buf: EncBuf?          // null at EOF
    var lhpos: nat            // index of the list header being read
    var strpos: nat           // current position in the string data
    var piece: Option<Piece>  // next piece to be read

    ghost predicate Valid()
      reads this, buf
    {
      buf != null ==>
        && buf.Valid()
        && lhpos <= |buf.lheads| && GoodHeads(buf.str, buf.lheads[lhpos..], strpos)
        && (piece.Some? ==> GoodPiece(piece.value))
    }

    ghost predicate GoodPiece(p: Piece)
      requires buf != null
      reads this, buf
    {
      p.lo < p.hi <= if p.StrPiece? then |buf.str| else buf.sizebuf.Length
    }

    function PieceBytes(p: Piece): (s: seq<byte>)
      requires buf != null && GoodPiece(p)
      reads this, buf, if buf == null then {} else {buf.sizebuf}
    {
      if p.StrPiece? then buf.str[p.lo..p.hi] else buf.sizebuf[p.lo..p.hi]
    }

    /** What has not been read yet, apart from the current piece. */
    ghost function Later(): (s: seq<byte>)
      requires Valid()
      reads this, buf
    {
      if buf == null then [] else Splice(buf.str, buf.lheads[lhpos..], strpos)
    }

    /** Everything that has not been read yet. */
    ghost function Pending(): (s: seq<byte>)
      requires Valid()
      reads this, buf, if buf == null then {} else {buf.sizebuf}
    {
      if buf != null && piece.Some? then PieceBytes(piece.value) + Later() else Later()
    }

    constructor (eb: EncBuf)
      requires eb.Valid() && GoodHeads(eb.str, eb.lheads, 0)
      ensures Valid() && buf == eb && Pending() == Splice(eb.str, eb.lheads, 0)
    {
      buf, lhpos, strpos, piece := eb, 0, 0, None;
      new;
      assert eb.lheads[0..] == eb.lheads;
    }

    /** next */
    method Next() returns (p: Option<Piece>)
      requires Valid()
      modifies this`lhpos, this`strpos, if buf == null then {} else {buf.sizebuf}
      ensures Valid()
      ensures p == None <==> old(Pending()) == []
      ensures p == None ==> piece == None || buf == null
      ensures p.Some? ==> buf != null && GoodPiece(p.value) && PieceBytes(p.value) + Later() == old(Pending())
      ensures p.Some? && piece.Some? ==> p == piece
    {
      hide Splice, GoodHeads, Header;
      if buf == null {
        return None;
      }
      if piece.Some? {
        return piece;
      }
      ghost var hs := buf.lheads[lhpos..];
      SpliceNext(buf.str, hs, strpos);
      if lhpos < |buf.lheads| {
        var head := buf.lheads[lhpos];
        assert hs[0] == head && hs[1..] == buf.lheads[lhpos + 1..];
        if head.offset - strpos > 0 {
          p := Some(StrPiece(strpos, head.offset));
          SkipAhead(buf.str, hs, strpos);
          strpos := head.offset;
          return;
        }
        lhpos := lhpos + 1;
        HeaderFits(head.size);
        var n := PutHead(buf.sizebuf, 0, 0xC0, 0xF7, head.size);
        p := Some(HeadPiece(0, n));
        assert buf.str[strpos..head.offset] == [];
      } else if strpos < |buf.str| {
        p := Some(StrPiece(strpos, |buf.str|));
        SkipAhead(buf.str, hs, strpos);
        strpos := |buf.str|;
      } else {
        p := None;
      }
    }

    /** Copies the current piece into b[n:]; keeps what did not fit. */
    method Deliver(b: array<byte>, n: nat) returns (nn: nat, more: bool)
      requires Valid() && buf != null && b != buf.sizebuf && piece.Some? && n <= b.Length
      modifies this`piece, b
      ensures Valid() && n + nn <= b.Length && nn <= |old(Pending())|
      ensures b[..n + nn] == old(b[..n]) + old(Pending())[..nn]
      ensures forall i | n + nn <= i < b.Length :: b[i] == old(b[i])
      ensures Pending() == old(Pending())[nn..]
      ensures more ==> n + nn == b.Length && |Pending()| > 0
      ensures !more ==> nn > 0
    {
      hide Splice, GoodHeads;
      var p := piece.value;
      var bytes := PieceBytes(p);
      ghost var later := Later();
      nn := Min(b.Length - n, |bytes|);
      var end := Copy(b, n, bytes[..nn]);
      ReadStep(bytes, later, nn);
      more := nn < |bytes|;
      if more {
        piece := Some(p.(lo := p.lo + nn));
        assert PieceBytes(piece.value) == bytes[nn..];
      } else {
        piece := None;
        assert [] + later == later;
      }
    }

    /** One round of Read's loop. */
    method Round(b: array<byte>, n: nat) returns (nn: nat, eof: bool, more: bool)
      requires Valid() && (buf != null ==> b != buf.sizebuf) && n <= b.Length
      modifies this, b, if buf == null then {} else {buf.sizebuf}
      ensures Valid() && buf == if eof then null else old(buf)
      ensures n + nn <= b.Length && nn <= |old(Pending())|
      ensures b[..n + nn] == old(b[..n]) + old(Pending())[..nn]
      ensures forall i | n + nn <= i < b.Length :: b[i] == old(b[i])
      ensures Pending() == old(Pending())[nn..]
      ensures eof <==> old(Pending()) == []
      ensures more ==> n + nn == b.Length && |Pending()| > 0
      ensures eof || more || nn > 0
    {
      hide Splice, GoodHeads;
      nn, eof, more := 0, false, false;
      piece := Next();
      if piece == None {
        // the buffer goes back to the pool
        buf, eof := null, true;
      } else {
        nn, more := Deliver(b, n);
      }
    }

    /**
      Read: fills b as far as the pending bytes go, never more, and reports EOF exactly when
      nothing is left. The buffer is given back at EOF.
     */
    method Read(b: array<byte>) returns (n: nat, eof: bool)
      requires Valid() && (buf != null ==> b != buf.sizebuf)
      modifies this, b, if buf == null then {} else {buf.sizebuf}
      ensures Valid() && (buf == null || buf == old(buf))
      ensures n == Min(b.Length, |old(Pending())|)
      ensures b[..n] == old(Pending())[..n]
      ensures forall i | n <= i < b.Length :: b[i] == old(b[i])
      ensures Pending() == old(Pending())[n..]
      ensures eof <==> |old(Pending())| <= b.Length
    {
      hide Splice, GoodHeads, Pending, Later;
      ghost var all := Pending();
      n, eof := 0, false;
      var more := false;
      assert b[..0] == all[..0] && all[0..] == all;
      while !eof && !more
        invariant Valid() && n <= b.Length && n <= |all|
        invariant buf == if eof then null else old(buf)
        invariant b[..n] == all[..n] && Pending() == all[n..]
        invariant forall i | n <= i < b.Length :: b[i] == old(b[i])
        invariant eof ==> n == |all|
        invariant more ==> n == b.Length && n < |all|
        decreases |all| - n, !eof && !more
      {
        var nn;
        nn, eof, more := Round(b, n);
        Further(all, n, nn);
        n := n + nn;
      }
    }
  }

  lemma Further(all: seq<byte>, n: nat, nn: nat)
    requires n + nn <= |all|
    ensures all[n..][nn..] == all[n + nn..] && all[..n] + all[n..][..nn] == all[..n + nn]
  {}

  lemma ReadStep(bytes: seq<byte>, later: seq<byte>, nn: nat)
    requires nn <= |bytes|
    ensures bytes[..nn] == (bytes + later)[..nn] && bytes[nn..] + later == (bytes + later)[nn..]
    ensures nn == |bytes| ==> bytes[nn..] == []
  {
    assert bytes == bytes[..nn] + bytes[nn..];
  }

  lemma SkipAhead(str: seq<byte>, hs: seq<ListHead>, pos: nat)
    requires GoodHeads(str, hs, pos)
    ensures var next := if hs == [] then |str| else hs[0].offset;
            && pos <= next <= |str| && GoodHeads(str, hs, next)
            && str[pos..next] + Splice(str, hs, next) == Splice(str, hs, pos)
  {
    SpliceAdvance(str, hs, pos, if hs == [] then |str| else hs[0].offset);
  }

  /** EncodeToReader: the reader still holds the whole encoding, and size is its exact length. */
  method EncodeToReader(v: Value) returns (size: nat, r: EncReader?, err: Option<Error>)
    requires GoValue(v) && Fits(ToItem(v))
    ensures err == if Writable(v) then None else Some(NegativeBigInt)
    ensures err == None ==>
              && r != null && fresh(r) && r.Valid() && r.buf != null && fresh(r.buf) && fresh(r.buf.sizebuf)
              && r.Pending() == Enc(ToItem(v)) && size == |Enc(ToItem(v))|
  {
    var eb := new EncBuf();
    size, r := 0, null;
    err := Fill(eb, v);
    if err == None {
      size := eb.Size();
      r := new EncReader(eb);
    }
  }

  // ---------------------------------------------------------------------------
  // Any sequence of reads
  // ---------------------------------------------------------------------------

  /** How successive reads with the given buffer sizes cut s, and what they leave. */
  function Chunks(s: seq<byte>, sizes: seq<nat>): (cs: seq<seq<byte>>)
    decreases |sizes|
  {
    if sizes == [] then []
    else
      var n := Min(sizes[0], |s|);
      [s[..n]] + Chunks(s[n..], sizes[1..])
  }

  function Total(sizes: seq<nat>): (n: nat)
  {
    if sizes == [] then 0 else sizes[0] + Total(sizes[1..])
  }

  /** However the reads are sized, the chunks concatenate to a prefix, and to all of s once there is room. */
  lemma {:induction false} ChunksConcat(s: seq<byte>, sizes: seq<nat>)
    ensures Concat(Chunks(s, sizes)) == s[..Min(Total(sizes), |s|)]
    decreases |sizes|
  {
    if sizes != [] {
      var n := Min(sizes[0], |s|);
      ChunksConcat(s[n..], sizes[1..]);
      assert Chunks(s, sizes)[1..] == Chunks(s[n..], sizes[1..]);
      assert s[..n] + s[n..][..Min(Total(sizes[1..]), |s| - n)] == s[..Min(Total(sizes), |s|)];
    }
  }

  method ReadChunk(r: EncReader, size: nat) returns (chunk: seq<byte>, eof: bool)
    requires r.Valid()
    modifies r, if r.buf == null then {} else {r.buf.sizebuf}
    ensures r.Valid() && (r.buf == null || r.buf == old(r.buf))
    ensures var s := old(r.Pending()); var n := Min(size, |s|);
            chunk == s[..n] && r.Pending() == s[n..] && (eof <==> |s| <= size)
  {
    hide Splice, GoodHeads;
    var b := new byte[size];
    var n: nat;
    n, eof := r.Read(b);
    chunk := b[..n];
  }

  /** Reads into buffers of the given sizes, whatever they are. */
  method ReadChunks(r: EncReader, sizes: seq<nat>) returns (chunks: seq<seq<byte>>, eof: bool)
    requires r.Valid()
    modifies r, if r.buf == null then {} else {r.buf.sizebuf}
    ensures r.Valid() && (r.buf == null || r.buf == old(r.buf))
    ensures chunks == Chunks(old(r.Pending()), sizes)
    ensures r.Pending() == old(r.Pending())[Min(Total(sizes), |old(r.Pending())|)..]
    ensures sizes != [] ==> (eof <==> |old(r.Pending())| <= Total(sizes))
    decreases |sizes|
  {
    hide Splice, GoodHeads;
    chunks, eof := [], false;
    if sizes != [] {
      ghost var s := r.Pending();
      var chunk, more;
      chunk, eof := ReadChunk(r, sizes[0]);
      if |sizes| > 1 {
        more, eof := ReadChunks(r, sizes[1..]);
        chunks := [chunk] + more;
      } else {
        chunks := [chunk];
      }
    }
  }

  /** EncodeToReader followed by reads of any sizes yields the encoding, cut up. */
  method EncodeInChunks(v: Value, sizes: seq<nat>) returns (size: nat, chunks: seq<seq<byte>>, eof: bool)
    requires GoValue(v) && Writable(v) && Fits(ToItem(v))
    ensures size == |Enc(ToItem(v))|
    ensures chunks == Chunks(Enc(ToItem(v)), sizes)
    ensures Concat(chunks) == Enc(ToItem(v))[..Min(Total(sizes), size)]
    ensures sizes != [] ==> (eof <==> size <= Total(sizes))
  {
    hide Enc, ToItem, Writable, GoValue;
    var r: EncReader?, err: Option<Error>;
    size, r, err := EncodeToReader(v);
    chunks, eof := ReadChunks(r, sizes);
    ChunksConcat(Enc(ToItem(v)), sizes);
  }
}
