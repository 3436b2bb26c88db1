/**
  The decoder of rlp/decode.go, in place: `Stream` runs the operations of RlpStream, and the
  decoders built on it accept exactly the canonical encodings of values of their type.
 */
module RlpDecode {
  import opened Basics
  import opened RlpSpec
  import opened RlpTypes
  import opened RlpStream
  import opened RlpMeaning
  import RlpEncode

  class Stream {
    var unread: seq<byte>      // the reader's remaining input
    var remaining: nat
    var limited: bool
    var kind: Option<Kind>
    var size: nat
    var byteval: byte
    var kinderr: Option<Error>
    var stack: seq<ListPos>

    function State(): (s: StreamState)
      reads this
    {
      StreamState(unread, remaining, limited, kind, size, byteval, kinderr, stack)
    }

    constructor (input: seq<byte>, limit: Option<nat>)
      ensures State() == NewStream(input, limit)
    {
      unread, limited := input, limit.Some?;
      remaining := if limit.Some? then limit.value else 0;
      stack, size, byteval, kind, kinderr := [], 0, 0, None, None;
    }

    method WillRead(n: nat) returns (err: Option<Error>)
      modifies this
      ensures (State(), err) == RlpStream.WillRead(old(State()), n)
    {
      kind := None;
      if |stack| > 0 {
        var tos := stack[|stack| - 1];
        if n > Sub64(tos.size, tos.pos) {
          return Some(ElemTooLarge);
        }
        stack := stack[|stack| - 1 := ListPos(Add64(tos.pos, n), tos.size)];
      }
      if limited {
        if n > remaining {
          return Some(ValueTooLarge);
        }
        remaining := Sub64(remaining, n);
      }
      return None;
    }

    /** The reader may return short; the loop goes on until the buffer is full or the input ends. */
    method FillBuffer(n: nat) returns (buf: seq<byte>, eof: bool)
      modifies this`unread
      ensures buf + unread == old(unread)
      ensures if eof then unread == [] && |buf| < n else |buf| == n
    {
      buf, eof := [], false;
      while |buf| < n && !eof
        invariant |buf| <= n && buf + unread == old(unread)
        invariant eof ==> unread == [] && |buf| < n
        decreases n - |buf|, !eof
      {
        if unread == [] {
          eof := true;
        } else {
          var nn :| 1 <= nn <= |unread| && nn <= n - |buf|;
          buf := buf + unread[..nn];
          unread := unread[nn..];
        }
      }
    }

    method ReadFull(n: nat) returns (r: Result<seq<byte>>)
      modifies this
      ensures (State(), r) == RlpStream.ReadFull(old(State()), n)
    {
      hide RlpStream.WillRead;
      var err := WillRead(n);
      if err.Some? {
        return Err(err.value);
      }
      ghost var was := unread;
      var buf, eof := FillBuffer(n);
      if eof {
        return Err(UnexpectedEOF);
      }
      assert was[..n] == buf && was[n..] == unread;
      r := Ok(buf);
    }

    method ReadByte() returns (r: Result<byte>)
      modifies this
      ensures (State(), r) == RlpStream.ReadByte(old(State()))
    {
      var b := ReadFull(1);
      r := match b case Ok(v) => Ok(v[0]) case Err(e) => Err(e);
    }

    method ReadUint(n: nat) returns (r: Result<nat>)
      requires n <= 8
      modifies this
      ensures (State(), r) == RlpStream.ReadUint(old(State()), n)
    {
      if n == 0 {
        kind := None;
        return Ok(0);
      }
      if n == 1 {
        var b := ReadByte();
        return match b case Ok(v) => Ok(v) case Err(e) => Err(e);
      }
      var start := 8 - n;
      var b := ReadFull(n);
      if b.Err? {
        return Err(b.error);
      }
      var uintbuf: seq<byte> := seq(start, _ => 0) + b.value;
      if uintbuf[start] == 0 {
        return Err(CanonSize);
      }
      BeLeadingZeros(start, b.value);
      r := Ok(BeValue(uintbuf));
    }

    method ReadKind() returns (k: KindAhead)
      modifies this
      ensures (State(), k) == RlpStream.ReadKind(old(State()))
    {
      var rb := ReadByte();
      if rb.Err? {
        var e := rb.error;
        if |stack| == 0 && (e == UnexpectedEOF || e == ValueTooLarge) {
          e := IoEOF;
        }
        return KindAhead(Byte, 0, Some(e));
      }
      var b := rb.value;
      byteval := 0;
      if b < 0x80 {
        byteval := b;
        return KindAhead(Byte, 0, None);
      } else if b < 0xB8 {
        return KindAhead(String, b - 0x80, None);
      } else if b < 0xC0 {
        var n := ReadUint(b - 0xB7);
        return LongSize(String, (State(), n)).1;
      } else if b < 0xF8 {
        return KindAhead(ListKind, b - 0xC0, None);
      } else {
        var n := ReadUint(b - 0xF7);
        return LongSize(ListKind, (State(), n)).1;
      }
    }

    method Kind() returns (k: KindAhead)
      modifies this
      ensures (State(), k) == NextKind(old(State()))
    {
      hide RlpStream.ReadKind, Sub64;
      if kind == None {
        kinderr := None;
        if |stack| > 0 && stack[|stack| - 1].pos == stack[|stack| - 1].size {
          return KindAhead(Byte, 0, Some(EOL));
        }
        k := ReadKind();
        kind, size, kinderr := Some(k.kind), k.size, k.err;
        if kinderr == None {
          if |stack| == 0 {
            if limited && size > remaining {
              kinderr := Some(ValueTooLarge);
            }
          } else {
            var tos := stack[|stack| - 1];
            if size > Sub64(tos.size, tos.pos) {
              kinderr := Some(ElemTooLarge);
            }
          }
        }
      }
      return KindAhead(kind.value, size, kinderr);
    }

    method Bytes() returns (r: Result<seq<byte>>)
      modifies this
      ensures (State(), r) == BytesStep(old(State()))
    {
      var k := Kind();
      if k.err.Some? {
        return Err(k.err.value);
      }
      match k.kind
      case Byte =>
        kind := None;
        r := Ok([byteval]);
      case String =>
        r := ReadFull(k.size);
        if r.Ok? && k.size == 1 && r.value[0] < 128 {
          r := Err(CanonSize);
        }
      case ListKind =>
        r := Err(ExpectedString);
    }

    /** The header is gone by now; a new one is put in front of the content. */
    method Raw() returns (r: Result<seq<byte>>)
      requires Inv(State())
      modifies this
      ensures (State(), r) == RawStep(old(State()))
    {
      hide Inv, RlpStream.ReadKind, RlpStream.WillRead, StringHeader, ListHeader;
      NextKindForm(State());
      var k := Kind();
      if k.err.Some? {
        return Err(k.err.value);
      }
      if k.kind == Byte {
        kind := None;
        return Ok([byteval]);
      }
      var b := ReadFull(k.size);
      if b.Err? {
        return Err(b.error);
      }
      var buf := WithHeader(k.kind == String, b.value);
      r := Ok(buf);
    }

    method Uint(maxbits: nat) returns (r: Result<nat>)
      requires maxbits <= 64
      modifies this
      ensures (State(), r) == UintStep(old(State()), maxbits)
    {
      var k := Kind();
      if k.err.Some? {
        return Err(k.err.value);
      }
      match k.kind
      case Byte =>
        if byteval == 0 {
          return Err(CanonInt);
        }
        kind := None;
        r := Ok(byteval);
      case String =>
        if k.size > maxbits / 8 {
          return Err(UintOverflow);
        }
        r := ReadUint(k.size);
        if r == Err(CanonSize) {
          r := Err(CanonInt);
        } else if r.Ok? && k.size > 0 && r.value < 128 {
          r := Err(CanonSize);
        }
      case ListKind =>
        r := Err(ExpectedString);
    }

    method List() returns (r: Result<nat>)
      modifies this
      ensures (State(), r) == ListStart(old(State()))
    {
      var k := Kind();
      if k.err.Some? {
        return Err(k.err.value);
      }
      if k.kind != ListKind {
        return Err(ExpectedList);
      }
      stack := stack + [ListPos(0, k.size)];
      kind := None;
      size := 0;
      r := Ok(k.size);
    }

    method ListEnd() returns (err: Option<Error>)
      modifies this
      ensures (State(), err) == RlpStream.ListEnd(old(State()))
    {
      if |stack| == 0 {
        return Some(NotInList);
      }
      var tos := stack[|stack| - 1];
      if tos.pos != tos.size {
        return Some(NotAtEOL);
      }
      stack := stack[..|stack| - 1];
      if |stack| > 0 {
        var t := stack[|stack| - 1];
        stack := stack[|stack| - 1 := ListPos(Add64(t.pos, tos.size), t.size)];
      }
      kind := None;
      size := 0;
      err := None;
    }

    /** decodeByteArray into a [n]byte */
    method ByteArray(n: nat) returns (r: Result<seq<byte>>)
      modifies this
      ensures (State(), r) == ByteArrayStep(old(State()), n)
    {
      var k := Kind();
      if k.err.Some? {
        return Err(k.err.value);
      }
      match k.kind
      case Byte =>
        if n == 0 {
          return Err(StringTooLong);
        }
        if n > 1 {
          return Err(StringTooShort);
        }
        var v := Uint(64);
        r := Ok([if v.Ok? then v.value % 256 else 0]);
      case String =>
        if n < k.size {
          return Err(StringTooLong);
        }
        if n > k.size {
          return Err(StringTooShort);
        }
        r := ReadFull(n);
        if r.Ok? && k.size == 1 && r.value[0] < 128 {
          r := Err(CanonSize);
        }
      case ListKind =>
        r := Err(ExpectedString);
    }
  }

  method WithHeader(str: bool, content: seq<byte>) returns (r: seq<byte>)
    requires |content| < U64
    ensures r == (if str then StringHeader(|content|) else ListHeader(|content|)) + content
  {
    hide BigEndian;
    var start := RlpEncode.HeadSizeOf(|content|);
    var buf := new byte[start + |content|];
    var end := RlpEncode.Copy(buf, start, content);
    assert buf[start..] == content by {
      assert buf[..end][start..] == content;
    }
    var n;
    if str {
      n := RlpEncode.PutHead(buf, 0, 0x80, 0xB7, |content|);
    } else {
      n := RlpEncode.PutHead(buf, 0, 0xC0, 0xF7, |content|);
    }
    assert n == start && buf[0 + n..] == content;
    r := buf[..];
    assert r == buf[0..0 + n] + buf[0 + n..];
  }

  // ---------------------------------------------------------------------------
  // When decoding must fail
  // ---------------------------------------------------------------------------

  /** No value of type t comes next. */
  ghost predicate NoValue(s: StreamState, t: Schema)
  {
    forall v | HasType(v, t) && Fits(ToItem(v)) :: !Has(s, Enc(ToItem(v)))
  }

  /** The rest of the innermost list is not a sequence of values of type t. */
  ghost predicate NoElems(s: StreamState, t: Schema)
    requires s.stack != []
  {
    forall vs | HasElemType(vs, t) && |EncAll(ToItems(vs))| == Left(s) < U64 :: !Has(s, EncAll(ToItems(vs)))
  }

  /** The rest of the innermost list is not a sequence of one value per field. */
  ghost predicate NoFields(s: StreamState, ts: seq<Schema>)
    requires s.stack != []
  {
    forall vs | |vs| == |ts| && HasFieldTypes(vs, ts) && |EncAll(ToItems(vs))| == Left(s) < U64 ::
      !Has(s, EncAll(ToItems(vs)))
  }

  lemma NoScalar(s: StreamState, t: Schema)
    requires Ready(s) && Supported(t)
    ensures t.Uint? && UintStep(s, t.bits).1.Err? ==> NoValue(s, t)
    ensures (t.BigInt? || t.Bytes?) && BytesStep(s).1.Err? ==> NoValue(s, t)
    ensures t.BigInt? && BytesStep(s).1.Ok? && |BytesStep(s).1.value| > 0 && BytesStep(s).1.value[0] == 0 ==> NoValue(s, t)
    ensures t.ByteArray? && ByteArrayStep(s, t.n).1.Err? ==> NoValue(s, t)
  {
    hide Inv, UintStep, BytesStep, ByteArrayStep, Has, Enc, BigEndian, Pow256, Fits;
    forall v | HasType(v, t) && Fits(ToItem(v)) && Has(s, Enc(ToItem(v)))
      ensures t.Uint? ==> UintStep(s, t.bits).1.Ok?
      ensures t.BigInt? ==> BytesStep(s).1 == Ok(BigEndian(v.i)) && (v.i > 0 ==> |BigEndian(v.i)| > 0 && BigEndian(v.i)[0] != 0)
      ensures t.BigInt? && v.i == 0 ==> BytesStep(s).1 == Ok([])
      ensures t.Bytes? ==> BytesStep(s).1.Ok?
      ensures t.ByteArray? ==> ByteArrayStep(s, t.n).1.Ok?
    {
      match t
      case Uint(bits) => UintComplete(s, bits, v.n);
      case BigInt => BytesComplete(s, BigEndian(v.i)); BeRoundTrip(v.i); BeZero();
      case Bytes => BytesComplete(s, v.s);
      case ByteArray(_) => ByteArrayComplete(s, v.s);
      case _ =>
    }
  }

  lemma BeZero()
    ensures BigEndian(0) == []
  {}

  /** A list of the type would have let ListStart succeed, and its elements would come next. */
  lemma ListOfItems(s: StreamState, xs: seq<Item>)
    requires Ready(s) && Fits(RlpSpec.List(xs)) && Has(s, Enc(RlpSpec.List(xs)))
    ensures var (s1, r) := ListStart(s);
            && r == Ok(|EncAll(xs)|) && s1.stack != [] && Left(s1) == |EncAll(xs)| < U64 && Has(s1, EncAll(xs))
  {
    hide Inv, ListStart, EncAll, ListHeader, Has;
    ListStartComplete(s, EncAll(xs));
  }

  /** Values decoded so far agree with any typed content ws of the innermost list. */
  lemma DecodedAgrees(s: StreamState, u: StreamState, vs: seq<Value>, ws: seq<Value>, ts: seq<Schema>)
    requires s.stack != [] && Took(s, u, EncAll(ToItems(vs)))
    requires |ws| <= |ts| && HasFieldTypes(ws, ts) && |EncAll(ToItems(ws))| == Left(s) < U64
    requires Has(s, EncAll(ToItems(ws)))
    ensures |vs| <= |ws| && (AtEnd(u) <==> |vs| == |ws|)
    ensures |vs| < |ws| ==> !NoValue(u, ts[|vs|])
  {
    hide Took, Has, Enc, EncAll, ToItem, AtEnd, Fits, HasType, Left;
    var xs, ys := ToItems(vs), ToItems(ws);
    DecodedIsPrefix(s, u, xs, ys);
    if |vs| < |ws| {
      var w := ws[|vs|];
      assert ys[|vs|] == ToItem(w);
      assert HasType(w, ts[|vs|]) && Fits(ToItem(w)) && Has(u, Enc(ToItem(w)));
    }
  }

  lemma NoElemsStep(s: StreamState, u: StreamState, vs: seq<Value>, t: Schema)
    requires s.stack != [] && Took(s, u, EncAll(ToItems(vs))) && !AtEnd(u) && NoValue(u, t)
    ensures NoElems(s, t)
  {
    hide Took, Has, Enc, EncAll, ToItem, ToItems, AtEnd, Fits, HasType, Left, NoValue;
    forall ws | HasElemType(ws, t) && |EncAll(ToItems(ws))| == Left(s) < U64
      ensures !Has(s, EncAll(ToItems(ws)))
    {
      if Has(s, EncAll(ToItems(ws))) {
        DecodedAgrees(s, u, vs, ws, seq(|ws|, _ => t));
        assert false;
      }
    }
  }

  lemma NoFieldsStep(s: StreamState, u: StreamState, vs: seq<Value>, ts: seq<Schema>)
    requires s.stack != [] && Took(s, u, EncAll(ToItems(vs))) && |vs| <= |ts|
    requires if |vs| < |ts| then AtEnd(u) || NoValue(u, ts[|vs|]) else !AtEnd(u)
    ensures NoFields(s, ts)
  {
    hide Took, Has, Enc, EncAll, ToItem, ToItems, AtEnd, Fits, HasType, Left, NoValue;
    forall ws | |ws| == |ts| && HasFieldTypes(ws, ts) && |EncAll(ToItems(ws))| == Left(s) < U64
      ensures !Has(s, EncAll(ToItems(ws)))
    {
      if Has(s, EncAll(ToItems(ws))) {
        DecodedAgrees(s, u, vs, ws, ts);
        assert false;
      }
    }
  }

  // ---------------------------------------------------------------------------
  // Decoders
  // ---------------------------------------------------------------------------

  /** The stream is at s0, or Kind has already looked at what comes next there. */
  ghost predicate AtValue(s0: StreamState, s: StreamState)
  {
    s == s0 || (NextKind(s0).1.err == None && s == NextKind(s0).0)
  }

  lemma AtValueSteps(s0: StreamState, s: StreamState)
    requires Inv(s0) && AtValue(s0, s)
    ensures Inv(s) && ListStart(s) == ListStart(s0) && BytesStep(s) == BytesStep(s0)
    ensures |s.unread| <= |s0.unread|
  {
    hide Inv, RlpStream.ReadKind, RlpStream.ReadFull;
    NextKindForm(s0);
    if s != s0 { KindIsCached(s0); }
  }

  /** At the end of a list every operation reports EOL and reads nothing. */
  lemma EndOfList(s: StreamState)
    requires s.kind == None && AtEnd(s)
    ensures var s1 := s.(kinderr := None);
            && NextKind(s) == (s1, KindAhead(Byte, 0, Some(EOL)))
            && BytesStep(s) == (s1, Err(EOL)) && ListStart(s) == (s1, Err(EOL))
            && (forall bits: nat :: UintStep(s, bits) == (s1, Err(EOL)))
            && (forall n: nat :: ByteArrayStep(s, n) == (s1, Err(EOL)))
  {}

  /**
    The decoder for type t. It succeeds exactly when the canonical encoding of a value of that
    type comes next within the limits; it then consumes exactly that encoding.
   */
  method DecodeValue(st: Stream, t: Schema) returns (r: Result<Value>)
    requires Ready(st.State()) && Supported(t)
    modifies st
    ensures Inv(st.State())
    ensures r.Ok? ==> HasType(r.value, t) && Took(old(st.State()), st.State(), Enc(ToItem(r.value)))
    ensures r.Err? ==> NoValue(old(st.State()), t)
    ensures r == Err(EOL) <==> AtEnd(old(st.State()))
    ensures r == Err(EOL) ==> st.State() == old(st.State()).(kinderr := None)
    decreases |st.unread|, 2
  {
    hide Inv, Took, Has, Enc, AtEnd, BigEndian, BytesStep, UintStep, ByteArrayStep, NextKind, Pow256, NoValue;
    ghost var s0 := st.State();
    if AtEnd(s0) { EndOfList(s0); }
    NoScalar(s0, t);
    match t
    case Uint(bits) =>
      UintSound(s0, bits);
      var n := st.Uint(bits);
      r := match n case Ok(v) => Ok(UintV(v)) case Err(e) => Err(e);
    case BigInt =>
      BytesSound(s0);
      var b := st.Bytes();
      r := match b case Ok(v) => (if |v| > 0 && v[0] == 0 then Err(CanonInt) else Ok(BigV(BeValue(v)))) case Err(e) => Err(e);
      if r.Ok? { BeCanonical(b.value); }
    case Bytes =>
      BytesSound(s0);
      var b := st.Bytes();
      r := match b case Ok(v) => Ok(BytesV(v)) case Err(e) => Err(e);
    case ByteArray(n) =>
      ByteArraySound(s0, n);
      var b := st.ByteArray(n);
      r := match b case Ok(v) => Ok(BytesV(v)) case Err(e) => Err(e);
    case Any =>
      r := DecodeInterface(st);
    case ListOf(elem) =>
      r := DecodeListSlice(st, t, elem, s0);
    case Struct(fields) =>
      r := DecodeStruct(st, fields);
  }

  lemma NoList(s: StreamState, t: Schema, elem: Schema)
    requires Ready(s) && (t == ListOf(elem) || (t == Any && elem == Any))
    requires ListStart(s).1.Err? || NoElems(ListStart(s).0, elem)
    requires t == Any ==> NextKind(s).1.err == None && NextKind(s).1.kind == ListKind
    ensures NoValue(s, t)
  {
    hide Inv, Has, Enc, EncAll, ToItems, ListStart, Fits, NextKind;
    forall v | HasType(v, t) && Fits(ToItem(v))
      ensures !Has(s, Enc(ToItem(v)))
    {
      if Has(s, Enc(ToItem(v))) {
        if v.ListV? {
          ListOfItems(s, ToItems(v.vs));
          assert false;
        } else {
          NotAString(s, v.s);
          assert false;
        }
      }
    }
  }

  lemma NotAString(s: StreamState, b: seq<byte>)
    requires Ready(s) && Fits(Str(b)) && Has(s, Enc(Str(b)))
    ensures NextKind(s).1.kind != ListKind
  {
    hide Inv, NextKind, RlpStream.ReadFull;
    BytesComplete(s, b);
  }

  /** decodeInterface */
  method DecodeInterface(st: Stream) returns (r: Result<Value>)
    requires Ready(st.State())
    modifies st
    ensures Inv(st.State())
    ensures r.Ok? ==> HasType(r.value, Any) && Took(old(st.State()), st.State(), Enc(ToItem(r.value)))
    ensures r.Err? ==> NoValue(old(st.State()), Any)
    ensures r == Err(EOL) <==> AtEnd(old(st.State()))
    ensures r == Err(EOL) ==> st.State() == old(st.State()).(kinderr := None)
    decreases |st.unread|, 1
  {
    hide Inv, Took, Has, Enc, AtEnd, BytesStep, NextKind, NoValue;
    ghost var s0 := st.State();
    NextKindForm(s0);
    if AtEnd(s0) { EndOfList(s0); }
    var k := st.Kind();
    if k.err.Some? {
      NothingAhead(s0);
      return Err(k.err.value);
    }
    AtValueSteps(s0, st.State());
    if k.kind == ListKind {
      r := DecodeListSlice(st, Any, Any, s0);
    } else {
      BytesSound(s0);
      NotAList(s0);
      var b := st.Bytes();
      r := match b case Ok(v) => Ok(BytesV(v)) case Err(e) => Err(e);
    }
  }

  /** Kind fails, so there is no value at all. */
  lemma NothingAhead(s: StreamState)
    requires Ready(s) && NextKind(s).1.err.Some?
    ensures NoValue(s, Any)
  {
    hide Inv, Has, Enc, EncAll, ToItems, ListStart, Fits, NextKind, BytesStep;
    forall v | HasType(v, Any) && Fits(ToItem(v))
      ensures !Has(s, Enc(ToItem(v)))
    {
      if Has(s, Enc(ToItem(v))) {
        ValueHasKind(s, ToItem(v));
        assert false;
      }
    }
  }

  lemma ValueHasKind(s: StreamState, x: Item)
    requires Ready(s) && Fits(x) && Has(s, Enc(x))
    ensures NextKind(s).1.err == None && NextKind(s).1.kind == KindOf(x)
  {
    hide Inv, NextKind, IsHead, StringHeader, ListHeader, Advanced, CanTake;
    EncSplit(x);
    HasHead(s, Head(x), Payload(x));
    NextKindComplete(s, Head(x), KindOf(x), |Payload(x)|);
  }

  lemma NotAList(s: StreamState)
    requires Ready(s) && NextKind(s).1.err == None && NextKind(s).1.kind != ListKind
    ensures BytesStep(s).1.Err? ==> NoValue(s, Any)
  {
    hide Inv, Has, Enc, EncAll, ToItems, ListStart, Fits, NextKind, BytesStep;
    if BytesStep(s).1.Err? {
      forall v | HasType(v, Any) && Fits(ToItem(v))
        ensures !Has(s, Enc(ToItem(v)))
      {
        if Has(s, Enc(ToItem(v))) {
          ValueHasKind(s, ToItem(v));
          BytesComplete(s, v.s);
          assert false;
        }
      }
    }
  }

  /** decodeListSlice, for a slice type t with elements of type elem. */
  method DecodeListSlice(st: Stream, ghost t: Schema, elem: Schema, ghost s0: StreamState) returns (r: Result<Value>)
    requires Ready(s0) && AtValue(s0, st.State()) && Supported(elem)
    requires t == ListOf(elem) || (t == Any && elem == Any)
    requires t == Any ==> NextKind(s0).1.err == None && NextKind(s0).1.kind == ListKind
    modifies st
    ensures Inv(st.State())
    ensures r.Ok? ==> HasType(r.value, t) && Took(s0, st.State(), Enc(ToItem(r.value)))
    ensures r.Err? ==> NoValue(s0, t)
    ensures r == Err(EOL) <==> AtEnd(s0)
    ensures r == Err(EOL) ==> st.State() == s0.(kinderr := None)
    decreases |s0.unread|, 0
  {
    hide Inv, Took, Has, AtEnd, NextKind, NoValue, NoElems, ListStart, EncAll, ListHeader, Entered, Left;
    AtValueSteps(s0, st.State());
    ListStartSound(s0);
    if AtEnd(s0) { EndOfList(s0); }
    var n := st.List();
    if n.Err? {
      NoList(s0, t, elem);
      return Err(n.error);
    }
    ghost var s1 := st.State();
    EnteredShrinks(s0, s1, n.value);
    var vs: seq<Value> := [];
    if n.value == 0 {
      NothingTook(s1);
    } else {
      var els := DecodeSliceElems(st, elem);
      if els.Err? {
        NoList(s0, t, elem);
        return Err(els.error);
      }
      vs := els.value;
    }
    ListEndSound(s0, s1, st.State(), EncAll(ToItems(vs)));
    var err := st.ListEnd();
    assert err == None;
    r := Ok(ListV(vs));
    TookIs(s0, st.State(), Enc(ToItem(r.value)));
  }

  lemma EnteredShrinks(s: StreamState, s1: StreamState, size: nat)
    requires Entered(s, s1, size)
    ensures |s1.unread| < |s.unread|
  {}

  lemma NothingTook(s: StreamState)
    requires Ready(s)
    ensures EncAll(ToItems([])) == [] && Took(s, s, [])
  {
    assert s.unread[0..] == s.unread;
    if s.stack != [] {
      assert SetTosPos(s, Tos(s).pos).stack == s.stack;
    }
  }

  lemma TookNext(s: StreamState, t: StreamState, u: StreamState, vs: seq<Value>, v: Value)
    requires Took(s, t, EncAll(ToItems(vs))) && Took(t, u, Enc(ToItem(v)))
    ensures Took(s, u, EncAll(ToItems(vs + [v])))
  {
    hide Inv, Enc, EncAll, ToItem, ToItems, Advanced, CanTake;
    TookIs(s, t, EncAll(ToItems(vs)));
    TookIs(t, u, Enc(ToItem(v)));
    ToItemsSnoc(vs, v);
    EncAllSnoc(ToItems(vs), ToItem(v));
    HeadThenPayload(s, t, u, EncAll(ToItems(vs)), Enc(ToItem(v)));
  }

  lemma TookIs(s: StreamState, t: StreamState, e: seq<byte>)
    requires Took(s, t, e)
    ensures e <= s.unread && Advanced(s, t, |e|) && |t.unread| == |s.unread| - |e| && Ready(t)
    ensures |t.stack| == |s.stack|
    ensures s.stack != [] ==> (AtEnd(t) <==> |e| == Left(s))
  {}

  lemma TookAgain(s: StreamState, t: StreamState, e: seq<byte>)
    requires Took(s, t, e)
    ensures Took(s, t.(kinderr := None), e)
  {}

  /** decodeSliceElems: elements until the end of the list. */
  method DecodeSliceElems(st: Stream, elem: Schema) returns (r: Result<seq<Value>>)
    requires Ready(st.State()) && st.stack != [] && Supported(elem)
    modifies st
    ensures Inv(st.State())
    ensures r.Ok? ==>
              && HasElemType(r.value, elem) && Took(old(st.State()), st.State(), EncAll(ToItems(r.value)))
              && |EncAll(ToItems(r.value))| == Left(old(st.State()))
    ensures r.Err? ==> r.error != EOL && NoElems(old(st.State()), elem)
    decreases |st.unread|, 3
  {
    hide Inv, Took, Has, Enc, EncAll, ToItem, ToItems, AtEnd, NoValue, NoElems, HasType, Left;
    ghost var s0 := st.State();
    var vs: seq<Value> := [];
    NothingTook(s0);
    while true
      invariant Ready(st.State()) && |st.unread| <= |s0.unread|
      invariant HasElemType(vs, elem) && Took(s0, st.State(), EncAll(ToItems(vs)))
      decreases |st.unread|
    {
      ghost var u := st.State();
      var v := DecodeValue(st, elem);
      TookIs(s0, u, EncAll(ToItems(vs)));
      if v == Err(EOL) {
        TookAgain(s0, u, EncAll(ToItems(vs)));
        return Ok(vs);
      }
      if v.Err? {
        NoElemsStep(s0, u, vs, elem);
        return Err(v.error);
      }
      TookNext(s0, u, st.State(), vs, v.value);
      TookIs(u, st.State(), Enc(ToItem(v.value)));
      EncNonEmpty(ToItem(v.value));
      vs := vs + [v.value];
    }
  }

  /** The struct decoder: one value per field, then the end of the list. */
  method DecodeStruct(st: Stream, fields: seq<Schema>) returns (r: Result<Value>)
    requires Ready(st.State()) && Supported(Struct(fields))
    modifies st
    ensures Inv(st.State())
    ensures r.Ok? ==> HasType(r.value, Struct(fields)) && Took(old(st.State()), st.State(), Enc(ToItem(r.value)))
    ensures r.Err? ==> NoValue(old(st.State()), Struct(fields))
    ensures r == Err(EOL) <==> AtEnd(old(st.State()))
    ensures r == Err(EOL) ==> st.State() == old(st.State()).(kinderr := None)
    decreases |st.unread|, 1
  {
    hide Inv, Took, Has, AtEnd, NextKind, NoValue, NoFields, ListStart, Enc, EncAll, ToItem, ToItems, HasType, Supported, ListHeader, Entered, Left, RlpStream.ListEnd;
    ghost var s0 := st.State();
    ListStartSound(s0);
    if AtEnd(s0) { EndOfList(s0); }
    var n := st.List();
    if n.Err? {
      NoStruct(s0, fields);
      return Err(n.error);
    }
    ghost var s1 := st.State();
    EnteredShrinks(s0, s1, n.value);
    var vs := DecodeFields(st, fields);
    if vs.Err? {
      NoStruct(s0, fields);
      return Err(vs.error);
    }
    ghost var s2, p := st.State(), EncAll(ToItems(vs.value));
    TookIs(s1, s2, p);
    ListEndAt(s2);
    var err := st.ListEnd();
    if err.Some? {
      NoFieldsStep(s1, s2, vs.value, fields);
      NoStruct(s0, fields);
      return Err(err.value);
    }
    ListEndSound(s0, s1, s2, p);
    StructOf(vs.value, fields);
    r := Ok(StructV(vs.value));
  }

  lemma StructOf(vs: seq<Value>, fields: seq<Schema>)
    requires |vs| == |fields| && HasFieldTypes(vs, fields)
    ensures HasType(StructV(vs), Struct(fields))
    ensures Enc(ToItem(StructV(vs))) == ListHeader(|EncAll(ToItems(vs))|) + EncAll(ToItems(vs))
  {
    hide EncAll, ListHeader;
  }

  lemma ListEndAt(s: StreamState)
    requires Inv(s)
    ensures Inv(RlpStream.ListEnd(s).0)
    ensures s.stack != [] ==> RlpStream.ListEnd(s).1 == if AtEnd(s) then None else Some(NotAtEOL)
  {
    hide Inv;
    StepInv(s, OpListEnd);
  }

  lemma NoStruct(s: StreamState, fields: seq<Schema>)
    requires Ready(s)
    requires ListStart(s).1.Err? || NoFields(ListStart(s).0, fields)
    ensures NoValue(s, Struct(fields))
  {
    hide Inv, Has, Enc, EncAll, ToItems, ListStart, Fits;
    forall v | HasType(v, Struct(fields)) && Fits(ToItem(v))
      ensures !Has(s, Enc(ToItem(v)))
    {
      if Has(s, Enc(ToItem(v))) {
        ListOfItems(s, ToItems(v.vs));
        assert false;
      }
    }
  }

  method DecodeFields(st: Stream, fields: seq<Schema>) returns (r: Result<seq<Value>>)
    requires Ready(st.State()) && st.stack != [] && Supported(Struct(fields))
    modifies st
    ensures Inv(st.State())
    ensures r.Ok? ==>
              && |r.value| == |fields| && HasFieldTypes(r.value, fields)
              && Took(old(st.State()), st.State(), EncAll(ToItems(r.value)))
    ensures r.Err? ==> r.error != EOL && NoFields(old(st.State()), fields)
    decreases |st.unread|, 3
  {
    hide Inv, Took, Has, Enc, EncAll, ToItem, ToItems, AtEnd, NoValue, NoFields, HasType, Left;
    ghost var s0 := st.State();
    var vs: seq<Value> := [];
    NothingTook(s0);
    for i := 0 to |fields|
      invariant Ready(st.State()) && |st.unread| <= |s0.unread| && |vs| == i
      invariant HasFieldTypes(vs, fields) && Took(s0, st.State(), EncAll(ToItems(vs)))
    {
      ghost var u := st.State();
      assert fields[i] in fields;
      var v := DecodeValue(st, fields[i]);
      TookIs(s0, u, EncAll(ToItems(vs)));
      if v.Err? {
        NoFieldsStep(s0, u, vs, fields);
        return Err(if v.error == EOL then TooFewElements else v.error);
      }
      TookNext(s0, u, st.State(), vs, v.value);
      TookIs(u, st.State(), Enc(ToItem(v.value)));
      vs := vs + [v.value];
    }
    r := Ok(vs);
  }

  /**
    DecodeBytes: exactly the canonical encodings of values of type t are accepted, each as the
    value it encodes.
   */
  method DecodeBytes(b: seq<byte>, t: Schema) returns (r: Result<Value>)
    requires |b| < U64 && Supported(t)
    ensures r.Ok? ==> HasType(r.value, t) && Enc(ToItem(r.value)) == b
    ensures r.Err? ==> !exists v :: HasType(v, t) && Enc(ToItem(v)) == b
    ensures forall v | HasType(v, t) && Enc(ToItem(v)) == b :: r == Ok(v)
  {
    hide Inv, Took, Enc, ToItem, HasType;
    var st := new Stream(b, Some(|b|));
    FreshInv(b, |b|);
    ghost var s0 := st.State();
    forall v | HasType(v, t) && Enc(ToItem(v)) == b
      ensures Fits(ToItem(v)) && Has(s0, Enc(ToItem(v)))
    {
    }
    r := DecodeValue(st, t);
    if r.Ok? {
      TookIs(s0, st.State(), Enc(ToItem(r.value)));
      forall v | HasType(v, t) && Enc(ToItem(v)) == b
        ensures v == r.value
      {
        EncPrefixFree(b, ToItem(v), ToItem(r.value));
        ToItemInjective(v, r.value, t);
      }
      if |st.unread| > 0 {
        r := Err(MoreThanOneValue);
      }
    }
  }
}
