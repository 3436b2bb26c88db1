/**
  The same stream with plain arithmetic: positions, sizes and the budget are unbounded numbers
  and nothing wraps. In every run the uint64 stream of RlpStream takes exactly these steps, so
  none of its subtractions and additions ever wraps.
 */
module RlpPlain {
  import opened Basics
  import opened RlpSpec
  import opened S = RlpStream

  // ---------------------------------------------------------------------------
  // The steps
  // ---------------------------------------------------------------------------

  function PlainCharge(s: StreamState, n: nat): (r: (StreamState, Option<Error>))
  {
    if !s.limited then (s, None)
    else if n > s.remaining then (s, Some(ValueTooLarge))
    else (s.(remaining := s.remaining - n), None)
  }

  function PlainWillRead(s: StreamState, n: nat): (r: (StreamState, Option<Error>))
  {
    var s1 := s.(kind := None);
    if s.stack == [] then PlainCharge(s1, n)
    else if n > Tos(s).size - Tos(s).pos then (s1, Some(ElemTooLarge))
    else PlainCharge(SetTosPos(s1, Tos(s).pos + n), n)
  }

  function PlainReadFull(s: StreamState, n: nat): (r: (StreamState, Result<seq<byte>>))
  {
    var (s1, err) := PlainWillRead(s, n);
    if err.Some? then (s1, Err(err.value))
    else if n <= |s1.unread| then (s1.(unread := s1.unread[n..]), Ok(s1.unread[..n]))
    else (s1.(unread := []), Err(UnexpectedEOF))
  }

  function PlainReadUint(s: StreamState, size: nat): (r: (StreamState, Result<nat>))
  {
    if size == 0 then (s.(kind := None), Ok(0))
    else
      var (s1, b) := PlainReadFull(s, size);
      (s1, match b
           case Ok(v) => if size > 1 && v[0] == 0 then Err(CanonSize) else Ok(BeValue(v))
           case Err(e) => Err(e))
  }

  function PlainReadKind(s: StreamState): (r: (StreamState, KindAhead))
  {
    var (s1, rb) := PlainReadFull(s, 1);
    match rb
    case Err(e) =>
      var e' := if s.stack == [] && (e == UnexpectedEOF || e == ValueTooLarge) then IoEOF else e;
      (s1, KindAhead(Byte, 0, Some(e')))
    case Ok(v) =>
      var b, s2 := v[0], s1.(byteval := 0);
      if b < 0x80 then (s2.(byteval := b), KindAhead(Byte, 0, None))
      else if b < 0xB8 then (s2, KindAhead(String, b - 0x80, None))
      else if b < 0xC0 then LongSize(String, PlainReadUint(s2, b - 0xB7))
      else if b < 0xF8 then (s2, KindAhead(ListKind, b - 0xC0, None))
      else LongSize(ListKind, PlainReadUint(s2, b - 0xF7))
  }

  function PlainNextKind(s: StreamState): (r: (StreamState, KindAhead))
  {
    if s.kind.Some? then (s, KindAhead(s.kind.value, s.size, s.kinderr))
    else if AtEnd(s) then (s.(kinderr := None), KindAhead(Byte, 0, Some(EOL)))
    else
      var (s1, k) := PlainReadKind(s.(kinderr := None));
      var err :=
        if k.err.Some? then k.err
        else if s1.stack == [] then (if s1.limited && k.size > s1.remaining then Some(ValueTooLarge) else None)
        else if k.size > Tos(s1).size - Tos(s1).pos then Some(ElemTooLarge) else None;
      (s1.(kind := Some(k.kind), size := k.size, kinderr := err), k.(err := err))
  }

  function PlainBytes(s: StreamState): (r: (StreamState, Result<seq<byte>>))
  {
    var (s1, k) := PlainNextKind(s);
    if k.err.Some? then (s1, Err(k.err.value))
    else match k.kind
      case Byte => (s1.(kind := None), Ok([s1.byteval]))
      case String =>
        var (s2, b) := PlainReadFull(s1, k.size);
        (s2, if b.Ok? && k.size == 1 && b.value[0] < 128 then Err(CanonSize) else b)
      case ListKind => (s1, Err(ExpectedString))
  }

  function PlainRaw(s: StreamState): (r: (StreamState, Result<seq<byte>>))
  {
    var (s1, k) := PlainNextKind(s);
    if k.err.Some? then (s1, Err(k.err.value))
    else if k.kind == Byte then (s1.(kind := None), Ok([s1.byteval]))
    else
      var (s2, b) := PlainReadFull(s1, k.size);
      (s2, match b
           case Ok(v) => Ok((if k.kind == String then StringHeader(k.size) else ListHeader(k.size)) + v)
           case Err(e) => Err(e))
  }

  function PlainUint(s: StreamState, maxbits: nat): (r: (StreamState, Result<nat>))
  {
    var (s1, k) := PlainNextKind(s);
    if k.err.Some? then (s1, Err(k.err.value))
    else match k.kind
      case Byte => if s1.byteval == 0 then (s1, Err(CanonInt)) else (s1.(kind := None), Ok(s1.byteval))
      case String =>
        if k.size > maxbits / 8 then (s1, Err(UintOverflow))
        else
          var (s2, v) := PlainReadUint(s1, k.size);
          (s2, if v.Err? then (if v.error == CanonSize then Err(CanonInt) else v)
               else if k.size > 0 && v.value < 128 then Err(CanonSize)
               else v)
      case ListKind => (s1, Err(ExpectedString))
  }

  function PlainList(s: StreamState): (r: (StreamState, Result<nat>))
  {
    var (s1, k) := PlainNextKind(s);
    if k.err.Some? then (s1, Err(k.err.value))
    else if k.kind != ListKind then (s1, Err(ExpectedList))
    else (s1.(stack := s1.stack + [ListPos(0, k.size)], kind := None, size := 0), Ok(k.size))
  }

  function PlainListEnd(s: StreamState): (r: (StreamState, Option<Error>))
  {
    if s.stack == [] then (s, Some(NotInList))
    else if Tos(s).pos != Tos(s).size then (s, Some(NotAtEOL))
    else
      var s1 := s.(stack := s.stack[..|s.stack| - 1], kind := None, size := 0);
      (if s1.stack == [] then s1 else SetTosPos(s1, Tos(s1).pos + Tos(s).size), None)
  }

  function PlainStep(s: StreamState, op: Op): (r: (StreamState, Option<Error>))
  {
    match op
    case OpKind => var (s1, k) := PlainNextKind(s); (s1, k.err)
    case OpBytes => var (s1, r) := PlainBytes(s); (s1, ErrorOf(r))
    case OpRaw => var (s1, r) := PlainRaw(s); (s1, ErrorOf(r))
    case OpUint(maxbits) => var (s1, r) := PlainUint(s, maxbits); (s1, ErrorOf(r))
    case OpList => var (s1, r) := PlainList(s); (s1, ErrorOf(r))
    case OpListEnd => PlainListEnd(s)
  }

  function PlainRun(s: StreamState, ops: seq<Op>): (s': StreamState)
    decreases |ops|
  {
    if ops == [] then s else PlainStep(PlainRun(s, ops[..|ops| - 1]), ops[|ops| - 1]).0
  }

  // ---------------------------------------------------------------------------
  // The uint64 stream takes them
  // ---------------------------------------------------------------------------

  lemma WillReadIsPlain(s: StreamState, n: nat)
    requires Inv(s)
    ensures WillRead(s, n) == PlainWillRead(s, n)
  {
    hide SumPos, OuterUnread, Sub64, Add64;
    NoWrap(s.remaining, n);
    if s.stack != [] {
      NestedTos(s.stack);
      NoWrap(Tos(s).size, Tos(s).pos);
      NoWrap(Tos(s).pos, n);
    }
  }

  lemma ReadFullIsPlain(s: StreamState, n: nat)
    requires Inv(s)
    ensures ReadFull(s, n) == PlainReadFull(s, n)
    ensures ReadFull(s, n).1.Ok? ==> |ReadFull(s, n).1.value| == n
  {
    hide Inv, WillRead, PlainWillRead;
    WillReadIsPlain(s, n);
  }

  lemma ReadUintIsPlain(s: StreamState, n: nat)
    requires Inv(s)
    ensures ReadUint(s, n) == PlainReadUint(s, n)
  {
    hide Inv, ReadFull, PlainReadFull;
    ReadFullIsPlain(s, n);
    if n == 1 && ReadFull(s, 1).1.Ok? { SingleByte(ReadFull(s, 1).1.value); }
  }

  lemma ReadKindIsPlain(s: StreamState)
    requires Inv(s)
    ensures ReadKind(s) == PlainReadKind(s)
  {
    hide Inv, ReadFull, PlainReadFull, ReadUint, PlainReadUint, LongSize;
    ReadFullIsPlain(s, 1);
    var (s1, r) := ReadFull(s, 1);
    if r.Ok? && r.value[0] >= 0xB8 {
      ByteReadInv(s);
      ReadUintIsPlain(s1.(byteval := 0), if r.value[0] < 0xC0 then r.value[0] - 0xB7 else if r.value[0] < 0xF8 then 0 else r.value[0] - 0xF7);
    }
  }

  lemma NextKindIsPlain(s: StreamState)
    requires Inv(s)
    ensures NextKind(s) == PlainNextKind(s)
  {
    hide Inv, ReadKind, PlainReadKind, Sub64, IsHead, CanTake, Advanced;
    if s.kind == None && !AtEnd(s) {
      KindErrInv(s);
      var s0 := s.(kinderr := None);
      ReadKindIsPlain(s0);
      ReadKindForm(s0);
      RoomIsPlain(ReadKind(s0).0);
    }
  }

  lemma RoomIsPlain(s: StreamState)
    requires Inv(s)
    ensures s.stack != [] ==> Sub64(Tos(s).size, Tos(s).pos) == Tos(s).size - Tos(s).pos
  {
    hide SumPos, OuterUnread, Sub64;
    if s.stack != [] {
      NestedTos(s.stack);
      NoWrap(Tos(s).size, Tos(s).pos);
    }
  }

  lemma ListEndIsPlain(s: StreamState)
    requires Inv(s)
    ensures S.ListEnd(s) == PlainListEnd(s)
  {
    hide SumPos, OuterUnread, Add64;
    if |s.stack| >= 2 { NoWrap(s.stack[|s.stack| - 2].pos, Tos(s).size); }
  }

  /** Each operation on a stream within its invariant is the plain one: same state, same answer, same error. */
  lemma StepIsPlain(s: StreamState, op: Op)
    requires Inv(s)
    ensures NextKind(s) == PlainNextKind(s) && BytesStep(s) == PlainBytes(s) && RawStep(s) == PlainRaw(s)
    ensures ListStart(s) == PlainList(s) && S.ListEnd(s) == PlainListEnd(s)
    ensures op.OpUint? ==> UintStep(s, op.maxbits) == PlainUint(s, op.maxbits)
    ensures Step(s, op) == PlainStep(s, op)
  {
    hide Inv, NextKind, PlainNextKind, ReadFull, PlainReadFull, ReadUint, PlainReadUint, S.ListEnd, PlainListEnd;
    ListEndIsPlain(s);
    NextKindIsPlain(s);
    NextKindForm(s);
    var (s1, k) := NextKind(s);
    ReadFullIsPlain(s1, k.size);
    ReadUintIsPlain(s1, k.size);
  }

  /** Over every sequence of calls the uint64 stream is the plain one. */
  lemma {:induction false} RunIsPlain(s: StreamState, ops: seq<Op>)
    requires Inv(s) && GoOps(ops)
    ensures Run(s, ops) == PlainRun(s, ops)
    decreases |ops|
  {
    hide Inv, Step, PlainStep;
    if ops != [] {
      var before := ops[..|ops| - 1];
      RunIsPlain(s, before);
      S.RunInv(s, before);
      StepIsPlain(Run(s, before), ops[|ops| - 1]);
    }
  }
}
