/**
  * Message frames: a code, a type and a size in front of an RLP payload, as the
  * peers write them to and read them from a connection.
  */
module Frames {
  import opened Basics
  import opened RlpSpec
  import opened RlpTypes
  import opened RlpStream
  import opened RlpMeaning
  import RlpEncode
  import RlpReader
  import RlpDecode

  const HEAD := 9

  // ---------------------------------------------------------------------------
  // Big-endian words
  // ---------------------------------------------------------------------------

  /** The four bytes putInt32 stores: the second one is shifted by 26, not by 16. */
  function Int32Bytes(v: nat): (b: seq<byte>)
  {
    [v / 0x100_0000 % 256, v / 0x400_0000 % 256, v / 0x100 % 256, v % 256]
  }

  /** readInt32 */
  function ReadInt32(b: seq<byte>): (v: nat)
    requires |b| == 4
    ensures v < U32
  {
    b[3] as int + b[2] as int * 0x100 + b[1] as int * 0x1_0000 + b[0] as int * 0x100_0000
  }

  /** What is read is the big-endian value; what is written has it too, once its second byte is mended. */
  lemma Int32Meaning(v: nat, b: seq<byte>)
    requires v < U32 && |b| == 4
    ensures ReadInt32(b) == BeValue(b)
    ensures |Int32Bytes(v)| == 4 && Int32Bytes(v)[1] == v / 0x400_0000 % 256
    ensures BeValue(Int32Bytes(v)[1 := v / 0x1_0000 % 256]) == v
  {
    hide BeValue;
    BeFour(b);
    BeFour(Int32Bytes(v)[1 := v / 0x1_0000 % 256]);
    Digits(v);
  }

  lemma BeFour(b: seq<byte>)
    requires |b| == 4
    ensures BeValue(b) == b[3] as int + b[2] as int * 0x100 + b[1] as int * 0x1_0000 + b[0] as int * 0x100_0000
  {
    assert b[..3][..2] == b[..2] && b[..2][..1] == b[..1] && b[..1][..0] == [];
    assert BeValue(b[..1]) == b[0];
    assert BeValue(b[..2]) == BeValue(b[..1]) * 256 + b[1];
    assert BeValue(b[..3]) == BeValue(b[..2]) * 256 + b[2];
  }

  /** The bits from 16 and the bits from 26 agree. */
  predicate Survives(v: nat)
  {
    v / 0x400_0000 % 256 == v / 0x1_0000 % 256
  }

  /** readInt32 undoes putInt32 exactly for the words that survive. */
  lemma Int32RoundTrip(v: nat)
    requires v < U32
    ensures ReadInt32(Int32Bytes(v)) == v <==> Survives(v)
  {
    Digits(v);
    var w, b2 := v / 0x400_0000 % 256, v / 0x1_0000 % 256;
    assert ReadInt32(Int32Bytes(v)) == v + (w - b2) * 0x1_0000;
  }

  lemma Divisions(v: nat)
    ensures v / 0x1_0000 == v / 0x100 / 0x100
    ensures v / 0x100_0000 == v / 0x1_0000 / 0x100
  {}

  lemma Digits(v: nat)
    requires v < U32
    ensures v == v % 256 + v / 0x100 % 256 * 0x100 + v / 0x1_0000 % 256 * 0x1_0000 + v / 0x100_0000 % 256 * 0x100_0000
  {
    Divisions(v);
    var q1 := v / 0x100;
    var q2 := q1 / 0x100;
    var q3 := q2 / 0x100;
    assert v == v % 256 + q1 * 0x100 && q1 == q1 % 256 + q2 * 0x100 && q2 == q2 % 256 + q3 * 0x100;
    assert q3 < 256;
  }

  /** The smallest word that does not survive. */
  lemma Word65536Lost()
    ensures ReadInt32(Int32Bytes(0x1_0000)) == 0 && !Survives(0x1_0000)
  {}

  lemma SmallSurvives(v: nat)
    requires v < 0x1_0000
    ensures Survives(v)
  {}

  // ---------------------------------------------------------------------------
  // Frames as bytes
  // ---------------------------------------------------------------------------

  datatype Frame = Frame(code: byte, typ: nat, payload: seq<byte>)

  /** The type is a uint32, and so is the length of the whole frame. */
  predicate Sendable(f: Frame)
  {
    f.typ < U32 && |f.payload| < U32 - HEAD
  }

  function Wire(f: Frame): (b: seq<byte>)
  {
    [f.code] + Int32Bytes(f.typ) + Int32Bytes(|f.payload|) + f.payload
  }

  function WireAll(fs: seq<Frame>): (b: seq<byte>)
  {
    if fs == [] then [] else Wire(fs[0]) + WireAll(fs[1..])
  }

  /** io.ReadFull: n bytes, or an error when the input ends first. */
  function Take(input: seq<byte>, n: nat): (r: Result<seq<byte>>)
    ensures r.Ok? <==> n <= |input|
  {
    if n <= |input| then Ok(input[..n]) else if input == [] then Err(IoEOF) else Err(UnexpectedEOF)
  }

  /** What ReadMsg takes from the input: a frame, or an error. */
  function Parse(input: seq<byte>): (r: Result<Frame>)
    ensures r.Ok? ==> HEAD + |r.value.payload| <= |input|
  {
    match Take(input, HEAD)
    case Err(e) => Err(e)
    case Ok(head) =>
      match Take(input[HEAD..], ReadInt32(head[5..9]))
      case Err(e) => Err(e)
      case Ok(payload) => Ok(Frame(head[0], ReadInt32(head[1..5]), payload))
  }

  /** n messages read one after the other, as far as they parse. */
  function ParseAll(input: seq<byte>, n: nat): (fs: seq<Frame>)
    decreases n
  {
    if n == 0 || Parse(input).Err? then []
    else [Parse(input).value] + ParseAll(input[HEAD + |Parse(input).value.payload|..], n - 1)
  }

  lemma WireParts(f: Frame, rest: seq<byte>)
    ensures var b := Wire(f) + rest;
      && |b| == HEAD + |f.payload| + |rest|
      && b[..HEAD][0] == f.code && b[..HEAD][1..5] == Int32Bytes(f.typ) && b[..HEAD][5..9] == Int32Bytes(|f.payload|)
      && b[HEAD..] == f.payload + rest
      && b[0] == f.code && b[1..5] == Int32Bytes(f.typ) && b[5..9] == Int32Bytes(|f.payload|) && b[9..] == f.payload + rest
  {
    var b, t, s := Wire(f) + rest, Int32Bytes(f.typ), Int32Bytes(|f.payload|);
    assert b == [f.code] + t + s + f.payload + rest;
    assert b[..HEAD] == [f.code] + t + s;
    assert b[1..5] == b[..HEAD][1..5] && b[5..9] == b[..HEAD][5..9];
  }

  /** A frame is read back as it was, whatever follows it, exactly if its type and its size survive. */
  lemma FrameBack(f: Frame, rest: seq<byte>)
    requires Sendable(f)
    ensures Parse(Wire(f) + rest) == Ok(f) <==> Survives(f.typ) && Survives(|f.payload|)
    ensures Parse(Wire(f) + rest) == Ok(f) ==> (Wire(f) + rest)[HEAD + |f.payload|..] == rest
  {
    hide Wire, Survives, Int32Bytes, ReadInt32;
    WireParts(f, rest);
    Int32RoundTrip(f.typ);
    Int32RoundTrip(|f.payload|);
    var b := Wire(f) + rest;
    assert b[HEAD..][..|f.payload|] == f.payload;
    assert b[HEAD + |f.payload|..] == b[HEAD..][|f.payload|..] == rest;
  }

  /** Messages written back to back are read back as the same messages exactly if all types and sizes survive. */
  lemma {:induction false} FramesBack(fs: seq<Frame>, rest: seq<byte>)
    requires forall f | f in fs :: Sendable(f)
    ensures ParseAll(WireAll(fs) + rest, |fs|) == fs <==> forall f | f in fs :: Survives(f.typ) && Survives(|f.payload|)
  {
    hide Wire, Survives, Parse, ParseAll, WireAll, Sendable;
    if fs == [] {
      NothingParsed(WireAll(fs) + rest);
    } else {
      var f, more := fs[0], fs[1..];
      WireFirst(fs, rest);
      FrameBack(f, WireAll(more) + rest);
      FramesBack(more, rest);
      ParseFirst(WireAll(fs) + rest, |more|);
      assert fs == [f] + more;
    }
  }

  lemma NothingParsed(input: seq<byte>)
    ensures ParseAll(input, 0) == []
  {}

  lemma ParseFirst(input: seq<byte>, n: nat)
    ensures ParseAll(input, n + 1) == if Parse(input).Err? then []
      else [Parse(input).value] + ParseAll(input[HEAD + |Parse(input).value.payload|..], n)
  {
    hide Parse;
  }

  lemma WireFirst(fs: seq<Frame>, rest: seq<byte>)
    requires fs != []
    ensures WireAll(fs) + rest == Wire(fs[0]) + (WireAll(fs[1..]) + rest)
  {
    hide Wire;
  }

  /** In particular for types and sizes below 2^16. */
  lemma SmallFramesBack(fs: seq<Frame>, rest: seq<byte>)
    requires forall f | f in fs :: f.typ < 0x1_0000 && |f.payload| < 0x1_0000
    ensures ParseAll(WireAll(fs) + rest, |fs|) == fs
  {
    forall f | f in fs ensures Survives(f.typ) && Survives(|f.payload|) {
      SmallSurvives(f.typ);
      SmallSurvives(|f.payload|);
    }
    FramesBack(fs, rest);
  }

  /** A payload of 65536 bytes is announced as empty: the reader returns none of it and takes it for the next frame. */
  lemma Payload65536Lost(f: Frame, rest: seq<byte>)
    requires f.typ < 0x1_0000 && |f.payload| == 0x1_0000
    ensures Parse(Wire(f) + rest) == Ok(Frame(f.code, f.typ, []))
    ensures (Wire(f) + rest)[HEAD..] == f.payload + rest
  {
    hide Wire, Survives, Int32Bytes, ReadInt32;
    WireParts(f, rest);
    SmallSurvives(f.typ);
    Int32RoundTrip(f.typ);
    Word65536Lost();
    assert (Wire(f) + rest)[HEAD..][..0] == [];
  }

  // ---------------------------------------------------------------------------
  // The connection
  // ---------------------------------------------------------------------------

  // Panics: the length of the frame, computed in 32 bits, has no room for the head.
  datatype SendError = NotConnected | Panics | SizeMismatch | CannotEncode(error: Error)

  /** putInt32 into b[at:] */
  method PutInt32(v: nat, b: array<byte>, at: nat)
    requires v < U32 && at + 4 <= b.Length
    modifies b
    ensures b[at..at + 4] == Int32Bytes(v)
    ensures forall i | 0 <= i < b.Length && !(at <= i < at + 4) :: b[i] == old(b[i])
  {
    b[at] := v / 0x100_0000 % 256;
    b[at + 1] := v / 0x400_0000 % 256;
    b[at + 2] := v / 0x100 % 256;
    b[at + 3] := v % 256;
  }

  class Conn {
    var open: bool           // fd is not nil
    var input: seq<byte>     // what the peer has sent and was not read yet
    var output: seq<byte>    // what was written

    /** The head of a frame, with room for the payload behind it. */
    method FillHead(code: byte, typ: nat, size: nat) returns (buff: array<byte>)
      requires typ < U32 && size < U32 - HEAD
      ensures fresh(buff) && buff.Length == HEAD + size
      ensures buff[..HEAD] == [code] + Int32Bytes(typ) + Int32Bytes(size)
    {
      hide Int32Bytes;
      buff := new byte[HEAD + size];
      buff[0] := code;
      PutInt32(typ, buff, 1);
      ghost var t := buff[1..5];
      PutInt32(size, buff, 5);
      assert buff[1..5] == t;
      assert buff[..HEAD] == [buff[0]] + buff[1..5] + buff[5..9];
    }

    method PutBody(buff: array<byte>, body: seq<byte>)
      requires buff.Length == HEAD + |body|
      modifies buff
      ensures buff[..] == old(buff[..HEAD]) + body
    {
      forall i | 0 <= i < |body| { buff[HEAD + i] := body[i]; }
    }

    /** WriteMsg: one read of the payload must yield size bytes; then the frame goes out whole. */
    method WriteMsg(code: byte, typ: nat, size: nat, payload: RlpReader.EncReader) returns (err: Option<SendError>)
      requires payload.Valid() && payload.buf != null && typ < U32 && size < U32
      modifies this`output, payload, payload.buf.sizebuf
      ensures err ==
        if !open then Some(NotConnected)
        else if size >= U32 - HEAD then Some(Panics)
        else if |old(payload.Pending())| < size then Some(SizeMismatch)
        else None
      ensures output == if err.Some? then old(output)
        else old(output) + Wire(Frame(code, typ, old(payload.Pending())[..size]))
    {
      hide Int32Bytes, RlpEncode.Splice, RlpEncode.GoodHeads;
      if !open { return Some(NotConnected); }
      if (HEAD + size) % U32 < HEAD { return Some(Panics); }
      ghost var all := payload.Pending();
      var buff := FillHead(code, typ, size);
      var body, _ := RlpReader.ReadChunk(payload, size);
      if |body| != size { return Some(SizeMismatch); }
      PutBody(buff, body);
      assert body == all[..size];
      output := output + buff[..];
      return None;
    }

    /** ReadMsg: consumes and returns one frame, or reports why there is none. */
    method ReadMsg() returns (r: Result<Frame>)
      modifies this`input
      ensures open ==> r == Parse(old(input))
      ensures !open ==> r.Err? && input == old(input)
      ensures r.Ok? ==> input == old(input)[HEAD + |r.value.payload|..]
    {
      hide ReadInt32;
      if !open { return Err(IoEOF); }
      var head := Take(input, HEAD);
      if head.Err? {
        input := [];
        return Err(head.error);
      }
      input := input[HEAD..];
      var h := head.value;
      var typ, size := ReadInt32(h[1..5]), ReadInt32(h[5..9]);
      var payload := Take(input, size);
      if payload.Err? {
        input := [];
        return Err(payload.error);
      }
      input := input[size..];
      r := Ok(Frame(h[0], typ, payload.value));
    }

    /** Send: the value's encoding as the payload of one frame, cut to its length modulo 2^32. */
    method Send(code: byte, typ: nat, v: Value) returns (err: Option<SendError>)
      requires GoValue(v) && Fits(ToItem(v)) && typ < U32
      modifies this`output
      ensures err ==
        if !Writable(v) then Some(CannotEncode(NegativeBigInt))
        else if !open then Some(NotConnected)
        else if |Enc(ToItem(v))| % U32 >= U32 - HEAD then Some(Panics)
        else None
      ensures output == if err.Some? then old(output)
        else old(output) + Wire(Frame(code, typ, Enc(ToItem(v))[..|Enc(ToItem(v))| % U32]))
      ensures err == None ==> (output == old(output) + Wire(Frame(code, typ, Enc(ToItem(v)))) <==> |Enc(ToItem(v))| < U32)
    {
      hide Wire, Enc, ToItem, GoValue, Writable;
      var size, r, e := RlpReader.EncodeToReader(v);
      if e.Some? { return Some(CannotEncode(e.value)); }
      ghost var all := Enc(ToItem(v));
      err := WriteMsg(code, typ, size % U32, r);
      WholeOrCut(code, typ, all, old(output));
    }
  }

  /** The frame carries the whole encoding exactly if its length fits 32 bits. */
  lemma WholeOrCut(code: byte, typ: nat, all: seq<byte>, before: seq<byte>)
    ensures before + Wire(Frame(code, typ, all[..|all| % U32])) == before + Wire(Frame(code, typ, all)) <==> |all| < U32
  {
    var cut := all[..|all| % U32];
    if |all| < U32 {
      assert cut == all;
    } else {
      assert |Wire(Frame(code, typ, cut))| == HEAD + |cut| && |Wire(Frame(code, typ, all))| == HEAD + |all|;
    }
  }

  /** A string of 2^32 bytes: only its header is sent, as if that were the whole message. */
  lemma LargeStringCut(s: seq<byte>)
    requires |s| == U32
    ensures var e := Enc(ToItem(BytesV(s)));
      && GoValue(BytesV(s)) && Writable(BytesV(s)) && Fits(ToItem(BytesV(s)))
      && |e| % U32 == 6 && e[..6] == StringHeader(U32) && e != e[..6]
  {
    hide BigEndian;
    LengthOfU32();
    var h := StringHeader(U32);
    assert Enc(Str(s)) == h + s;
    assert (h + s)[..|h|] == h;
  }

  lemma LengthOfU32()
    ensures |BigEndian(U32)| == 5
  {
    hide BigEndian;
    BeLength(U32, 4);
    BeLength(U32, 5);
    assert Pow256(4) == 256 * Pow256(3) && Pow256(3) == 256 * Pow256(2) && Pow256(2) == 0x1_0000;
  }

  /** Msg.Decode: a stream over the payload, limited to its size. */
  method Decode(f: Frame, t: Schema) returns (r: Result<Value>)
    requires |f.payload| < U32 && Supported(t)
    ensures forall v | HasType(v, t) && Enc(ToItem(v)) == f.payload :: r == Ok(v)
    ensures r.Ok? ==> HasType(r.value, t) && Enc(ToItem(r.value)) <= f.payload
  {
    hide Inv, Took, Enc, ToItem, HasType;
    var st := new RlpDecode.Stream(f.payload, Some(|f.payload|));
    FreshInv(f.payload, |f.payload|);
    ghost var s0 := st.State();
    forall v | HasType(v, t) && Enc(ToItem(v)) == f.payload
      ensures Fits(ToItem(v)) && Has(s0, Enc(ToItem(v)))
    {
    }
    r := RlpDecode.DecodeValue(st, t);
    if r.Ok? {
      RlpDecode.TookIs(s0, st.State(), Enc(ToItem(r.value)));
      forall v | HasType(v, t) && Enc(ToItem(v)) == f.payload
        ensures v == r.value
      {
        EncPrefixFree(f.payload, ToItem(v), ToItem(r.value));
        ToItemInjective(v, r.value, t);
      }
    }
  }

  /**
    * End to end: what one peer sends, the other reads and decodes to the same value, with the same code and
    * type, if the type and the length of the encoding survive the frame head.
    */
  method Exchange(a: Conn, b: Conn, code: byte, typ: nat, v: Value, t: Schema) returns (code': byte, typ': nat, r: Result<Value>)
    requires a != b && a.open && b.open && a.output == [] && b.input == []
    requires HasType(v, t) && Supported(t) && GoValue(v) && Writable(v) && Fits(ToItem(v))
    requires |Enc(ToItem(v))| < U32 - HEAD && typ < U32
    requires Survives(typ) && Survives(|Enc(ToItem(v))|)
    modifies a, b
    ensures code' == code && typ' == typ && r == Ok(v) && b.input == []
  {
    hide Wire, Enc, ToItem, HasType, Supported, GoValue, Writable, Parse, Survives;
    var err := a.Send(code, typ, v);
    WholeOrCut(code, typ, Enc(ToItem(v)), []);
    ghost var f := Frame(code, typ, Enc(ToItem(v)));
    FrameBack(f, []);
    assert Wire(f) + [] == Wire(f) && [] + Wire(f) == Wire(f);
    b.input := a.output;
    var msg := b.ReadMsg();
    code', typ' := msg.value.code, msg.value.typ;
    r := Decode(msg.value, t);
  }
}
