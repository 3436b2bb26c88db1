/**
  rlp/raw.go: the second header parser, working on a slice. It agrees with the encoding and,
  through it, with the stream.
 */
module RlpRaw {
  import opened Basics
  import opened RlpSpec
  import opened RlpStream
  import opened RlpMeaning

  datatype RawHead = RawHead(kind: Kind, tagsize: nat, contentsize: nat)

  datatype Parts = Parts(kind: Kind, content: seq<byte>, rest: seq<byte>)

  /** readSize: the length bytes, most significant first. */
  function ReadSize(b: seq<byte>, slen: nat): (r: Result<nat>)
    requires slen >= 1
  {
    if slen > |b| then Err(UnexpectedEOF)
    else
      var s := BeValue(b[..slen]);
      if s < 56 || b[0] == 0 then Err(CanonSize) else Ok(s)
  }

  /** The size check at the end of readKind. */
  function Sized(buf: seq<byte>, kind: Kind, tagsize: nat, contentsize: nat): (r: Result<RawHead>)
    requires tagsize <= |buf|
  {
    if contentsize > |buf| - tagsize then Err(ValueTooLarge) else Ok(RawHead(kind, tagsize, contentsize))
  }

  function LongSized(buf: seq<byte>, kind: Kind, extra: nat): (r: Result<RawHead>)
    requires buf != [] && extra >= 1
  {
    match ReadSize(buf[1..], extra)
    case Ok(n) => Sized(buf, kind, 1 + extra, n)
    case Err(e) => Err(e)
  }

  function ReadKind(buf: seq<byte>): (r: Result<RawHead>)
  {
    if buf == [] then Err(UnexpectedEOF)
    else
      var b := buf[0];
      if b < 0x80 then Sized(buf, Byte, 0, 1)
      else if b < 0xB8 then
        if b == 0x81 && |buf| > 1 && buf[1] < 128 then Err(CanonSize)
        else Sized(buf, String, 1, b - 0x80)
      else if b < 0xC0 then LongSized(buf, String, b - 0xB7)
      else if b < 0xF8 then Sized(buf, ListKind, 1, b - 0xC0)
      else LongSized(buf, ListKind, b - 0xF7)
  }

  lemma ReadKindFits(buf: seq<byte>)
    ensures ReadKind(buf).Ok? ==>
              var h := ReadKind(buf).value; 1 <= h.tagsize + h.contentsize <= |buf|
  {}

  function Split(b: seq<byte>): (r: Result<Parts>)
    ensures r.Ok? ==> |r.value.rest| < |b|
  {
    ReadKindFits(b);
    match ReadKind(b)
    case Err(e) => Err(e)
    case Ok(h) =>
      Ok(Parts(h.kind, b[h.tagsize..h.tagsize + h.contentsize], b[h.tagsize + h.contentsize..]))
  }

  function SplitString(b: seq<byte>): (r: Result<(seq<byte>, seq<byte>)>)
  {
    match Split(b)
    case Err(e) => Err(e)
    case Ok(p) => if p.kind == ListKind then Err(ExpectedString) else Ok((p.content, p.rest))
  }

  function SplitList(b: seq<byte>): (r: Result<(seq<byte>, seq<byte>)>)
  {
    match Split(b)
    case Err(e) => Err(e)
    case Ok(p) => if p.kind != ListKind then Err(ExpectedList) else Ok((p.content, p.rest))
  }

  /** ListSize: the encoded size of a list with the given payload. */
  function ListSize(contentSize: nat): (n: nat)
    ensures forall xs | |EncAll(xs)| == contentSize :: n == |Enc(List(xs))|
  {
    (if contentSize < 56 then 1 else 1 + |BigEndian(contentSize)|) + contentSize
  }

  /** Content as Split reports it: a single byte is its own content. */
  function Content(x: Item): (c: seq<byte>)
  {
    if KindOf(x) == Byte then x.s else Payload(x)
  }

  // ---------------------------------------------------------------------------
  // Meaning
  // ---------------------------------------------------------------------------

  /** A header that Split accepts is canonical, and the parts are cut at it. */
  lemma ReadKindSound(b: seq<byte>)
    requires ReadKind(b).Ok?
    ensures var h := ReadKind(b).value;
            && (h.kind == Byte ==> h.tagsize == 0 && h.contentsize == 1 && b[0] < 0x80)
            && (h.kind != Byte ==>
                  && h.tagsize + h.contentsize <= |b| && IsHead(b[..h.tagsize], h.kind, h.contentsize))
            && (h.kind == String && h.contentsize == 1 ==> h.tagsize == 1 && b[1] >= 0x80)
  {
    hide BeValue, IsHead, BigEndian;
    var n := 1 + TagExtra(b[0]);
    if b[0] >= 0x80 && n <= |b| {
      assert b[1..][..n - 1] == b[..n][1..];
      if Canonical(b[..n]) { HeadFromTag(b[..n]); }
    }
  }

  /** Whatever Split accepts, it cuts where the encoding ends. */
  lemma SplitStringSound(b: seq<byte>)
    requires SplitString(b).Ok?
    ensures var (c, rest) := SplitString(b).value; b == Enc(Str(c)) + rest
  {
    hide ReadKind, BeValue, BigEndian, StringHeader;
    ReadKindFits(b);
    ReadKindSound(b);
    var h := ReadKind(b).value;
    if h.kind == String {
      var c := b[h.tagsize..h.tagsize + h.contentsize];
      assert |c| == 1 ==> c[0] == b[h.tagsize];
      assert b == b[..h.tagsize] + c + b[h.tagsize + h.contentsize..];
    } else {
      assert b == b[0..1] + b[1..];
    }
  }

  /** The first value of any concatenation is split off, whatever its kind. */
  lemma SplitComplete(x: Item, rest: seq<byte>)
    requires |Enc(x) + rest| < U64
    ensures Split(Enc(x) + rest) == Ok(Parts(KindOf(x), Content(x), rest))
  {
    hide Enc, EncAll, BeValue, IsHead, StringHeader, ListHeader, BigEndian;
    var b := Enc(x) + rest;
    var h, p := Head(x), Payload(x);
    EncSplit(x);
    HeadTag(h, KindOf(x), |p|);
    assert b == h + (p + rest);
    HeadAccepted(b, h, p + rest);
    if KindOf(x) == Byte {
      assert b[0..1] == h && b[1..] == rest;
    } else {
      NotOneByte(x);
      assert |h| == 1 && |p| >= 1 ==> b[1] == p[0];
      assert b[|h|..|h| + |p|] == p && b[|h| + |p|..] == rest;
    }
  }

  lemma NotOneByte(x: Item)
    ensures KindOf(x) == String && |Payload(x)| == 1 ==> Payload(x)[0] >= 0x80
  {}

  lemma HeadAccepted(b: seq<byte>, h: seq<byte>, w: seq<byte>)
    requires b == h + w && h != [] && |h| == 1 + TagExtra(h[0]) && Canonical(h)
    requires HeadSize(h) <= |w|
    requires h[0] == 0x81 ==> w[0] >= 0x80
    ensures ReadKind(b) == Ok(if h[0] < 0x80 then RawHead(Byte, 0, 1) else RawHead(TagKind(h[0]), |h|, HeadSize(h)))
  {
    hide BeValue;
    if |h| > 1 {
      assert b[1..][..|h| - 1] == h[1..];
    }
  }

  /** SplitString undoes the encoding of a string in front of anything, and accepts nothing else. */
  lemma SplitStringExact(b: seq<byte>, c: seq<byte>, rest: seq<byte>)
    requires |b| < U64
    ensures SplitString(b) == Ok((c, rest)) <==> b == Enc(Str(c)) + rest
  {
    hide Split, Enc;
    if SplitString(b) == Ok((c, rest)) {
      SplitStringSound(b);
    }
    if b == Enc(Str(c)) + rest {
      SplitComplete(Str(c), rest);
    }
  }

  /** SplitList cuts off a canonical list header and its payload, whatever the payload holds, and accepts nothing else. */
  lemma SplitListExact(b: seq<byte>, c: seq<byte>, rest: seq<byte>)
    requires |b| < U64
    ensures SplitList(b) == Ok((c, rest)) <==> b == ListHeader(|c|) + c + rest
  {
    hide ReadKind, BeValue, BigEndian, ListHeader;
    var h := ListHeader(|c|);
    if SplitList(b) == Ok((c, rest)) {
      ReadKindFits(b);
      ReadKindSound(b);
      var n := ReadKind(b).value.tagsize;
      assert b == b[..n] + b[n..n + |c|] + b[n + |c|..];
    }
    if b == h + c + rest {
      HeadTag(h, ListKind, |c|);
      assert b == h + (c + rest);
      HeadAccepted(b, h, c + rest);
      assert b[|h|..|h| + |c|] == c && b[|h| + |c|..] == rest;
    }
  }

  lemma FreshHas(b: seq<byte>, e: seq<byte>)
    requires |b| < U64
    ensures Ready(NewStream(b, Some(|b|))) && (Has(NewStream(b, Some(|b|)), e) <==> e <= b)
  {
    FreshInv(b, |b|);
  }

  /** The two header parsers agree on strings: same acceptance, same content, same rest. */
  lemma ParsersAgree(b: seq<byte>, c: seq<byte>, rest: seq<byte>)
    requires |b| < U64
    ensures var (s, r) := BytesStep(NewStream(b, Some(|b|)));
            SplitString(b) == Ok((c, rest)) <==> r == Ok(c) && s.unread == rest
  {
    hide SplitString, BytesStep, Enc, Inv, Took, Has;
    var s0 := NewStream(b, Some(|b|));
    var e := Enc(Str(c));
    SplitStringExact(b, c, rest);
    FreshHas(b, e);
    BytesSound(s0);
    var (s, r) := BytesStep(s0);
    if b == e + rest {
      assert e <= b;
      BytesComplete(s0, c);
    }
    if r == Ok(c) {
      TookFrom(s0, s, e);
      assert b == e + rest ==> rest == b[|e|..] == s.unread;
    }
  }

  lemma TookFrom(s: StreamState, s1: StreamState, e: seq<byte>)
    requires Took(s, s1, e)
    ensures s.unread == e + s1.unread
  {
    assert s.unread == s.unread[..|e|] + s.unread[|e|..];
  }

  /** Raw returns exactly the bytes it consumes, for values of every kind. */
  lemma RawSound(s: StreamState)
    requires Ready(s)
    ensures var (s1, r) := RawStep(s); r.Ok? ==> Took(s, s1, r.value)
  {
    hide Inv, NextKind, ReadFull, StringHeader, ListHeader;
    NextKindForm(s);
    var (s1, k) := NextKind(s);
    if k.err == None {
      if k.kind == Byte {
        KindDisarmed(s1);
      } else {
        ReadFullForm(s1, k.size);
        var h := s.unread[..HeadLen(s.unread)];
        if ReadFull(s1, k.size).1.Ok? {
          HeadThenPayload(s, s1, ReadFull(s1, k.size).0, h, s1.unread[..k.size]);
        }
      }
    }
  }

  /** Raw yields every encoded value unchanged, without looking inside lists. */
  lemma RawComplete(s: StreamState, x: Item)
    requires Ready(s) && Fits(x) && Has(s, Enc(x))
    ensures RawStep(s).1 == Ok(Enc(x))
  {
    hide Inv, NextKind, ReadFull, IsHead, StringHeader, ListHeader, Advanced, CanTake, EncAll;
    EncSplit(x);
    var h, p := Head(x), Payload(x);
    HasHead(s, h, p);
    NextKindComplete(s, h, KindOf(x), |p|);
    var s1 := NextKind(s).0;
    if KindOf(x) != Byte {
      HasPayload(s, s1, h, p);
      PayloadRead(s1, p);
    }
  }

  /** How many values Split finds in b, or the error at the first one it rejects. */
  function ValueCount(b: seq<byte>): (r: Result<nat>)
    decreases |b|
  {
    if b == [] then Ok(0)
    else match Split(b)
      case Err(e) => Err(e)
      case Ok(p) => (match ValueCount(p.rest)
                     case Ok(n) => Ok(n + 1)
                     case Err(e) => Err(e))
  }

  /** Any concatenation of n encodings counts as n values. */
  lemma {:induction false} CountOfEncodings(xs: seq<Item>)
    requires |EncAll(xs)| < U64
    ensures ValueCount(EncAll(xs)) == Ok(|xs|)
    decreases |xs|
  {
    hide Enc, EncAll, Split;
    EncAllCons(xs);
    if xs != [] {
      SplitComplete(xs[0], EncAll(xs[1..]));
      CountOfEncodings(xs[1..]);
    }
  }

  method CountValues(b: seq<byte>) returns (r: Result<nat>)
    ensures r == ValueCount(b)
    ensures |b| < U64 ==> forall xs | EncAll(xs) == b :: r == Ok(|xs|)
  {
    hide ReadKind, EncAll;
    forall xs | EncAll(xs) == b && |b| < U64
      ensures ValueCount(b) == Ok(|xs|)
    {
      CountOfEncodings(xs);
    }
    var rest, i := b, 0;
    while |rest| > 0
      invariant ValueCount(b) == match ValueCount(rest) case Ok(n) => Ok(i + n) case Err(e) => Err(e)
    {
      var h := ReadKind(rest);
      ReadKindFits(rest);
      if h.Err? {
        return Err(h.error);
      }
      rest := rest[h.value.tagsize + h.value.contentsize..];
      i := i + 1;
    }
    r := Ok(i);
  }
}
