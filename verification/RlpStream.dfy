/**
  The decoding stream of rlp/decode.go as a state machine: the cached kind ahead, the sticky
  error, the stack of list positions and the input budget. Every operation is a function on
  stream states; module RlpDecode runs them in place.
 */
module RlpStream {
  import opened Basics
  import opened RlpSpec

  // ---------------------------------------------------------------------------
  // States and primitive reads
  // ---------------------------------------------------------------------------

  datatype ListPos = ListPos(pos: nat, size: nat)

  datatype StreamState = StreamState(
    unread: seq<byte>,         // what the reader still holds
    remaining: nat,            // input budget, when limited
    limited: bool,
    kind: Option<Kind>,        // kind of the value ahead; None means "not read yet"
    size: nat,                 // size of the value ahead
    byteval: byte,             // value of a single byte
    kinderr: Option<Error>,    // error from the last readKind
    stack: seq<ListPos>        // enclosing lists, innermost last
  )

  /** uint64 arithmetic, wrapping. */
  function Sub64(a: nat, b: nat): (r: nat) { (a - b) % U64 }
  function Add64(a: nat, b: nat): (r: nat) { (a + b) % U64 }

  function Tos(s: StreamState): (t: ListPos)
    requires s.stack != []
  {
    s.stack[|s.stack| - 1]
  }

  function SetTosPos(s: StreamState, pos: nat): (r: StreamState)
    requires s.stack != []
  {
    s.(stack := s.stack[|s.stack| - 1 := ListPos(pos, Tos(s).size)])
  }

  /** NewStream: reading `input` under an explicit limit, or without one (an io.Reader of unknown length). */
  function NewStream(input: seq<byte>, limit: Option<nat>): (s: StreamState)
  {
    StreamState(input, if limit.Some? then limit.value else 0, limit.Some?, None, 0, 0, None, [])
  }

  /** NewListStream: as if a list header of the given size had just been read. */
  function NewListStream(input: seq<byte>, size: nat): (s: StreamState)
  {
    NewStream(input, Some(size)).(kind := Some(ListKind), size := size)
  }

  function Charge(s: StreamState, n: nat): (r: (StreamState, Option<Error>))
  {
    if !s.limited then (s, None)
    else if n > s.remaining then (s, Some(ValueTooLarge))
    else (s.(remaining := Sub64(s.remaining, n)), None)
  }

  function WillRead(s: StreamState, n: nat): (r: (StreamState, Option<Error>))
  {
    var s1 := s.(kind := None);
    if s.stack == [] then Charge(s1, n)
    else if n > Sub64(Tos(s).size, Tos(s).pos) then (s1, Some(ElemTooLarge))
    else Charge(SetTosPos(s1, Add64(Tos(s).pos, n)), n)
  }

  function ReadFull(s: StreamState, n: nat): (r: (StreamState, Result<seq<byte>>))
  {
    var (s1, err) := WillRead(s, n);
    if err.Some? then (s1, Err(err.value))
    else if n <= |s1.unread| then (s1.(unread := s1.unread[n..]), Ok(s1.unread[..n]))
    else (s1.(unread := []), Err(UnexpectedEOF))
  }

  function ReadByte(s: StreamState): (r: (StreamState, Result<byte>))
  {
    var (s1, b) := ReadFull(s, 1);
    (s1, match b case Ok(v) => Ok(v[0]) case Err(e) => Err(e))
  }

  function ReadUint(s: StreamState, size: nat): (r: (StreamState, Result<nat>))
  {
    if size == 0 then (s.(kind := None), Ok(0))
    else if size == 1 then
      var (s1, b) := ReadByte(s);
      (s1, match b case Ok(v) => Ok(v) case Err(e) => Err(e))
    else
      var (s1, b) := ReadFull(s, size);
      (s1, match b
           case Ok(v) => if v[0] == 0 then Err(CanonSize) else Ok(BeValue(v))
           case Err(e) => Err(e))
  }

  datatype KindAhead = KindAhead(kind: Kind, size: nat, err: Option<Error>)

  function LongSize(kind: Kind, r: (StreamState, Result<nat>)): (q: (StreamState, KindAhead))
  {
    match r.1
    case Ok(size) => (r.0, KindAhead(kind, size, if size < 56 then Some(CanonSize) else None))
    case Err(e) => (r.0, KindAhead(kind, 0, Some(e)))
  }

  function ReadKind(s: StreamState): (r: (StreamState, KindAhead))
  {
    var (s1, rb) := ReadByte(s);
    match rb
    case Err(e) =>
      var e' := if s.stack == [] && (e == UnexpectedEOF || e == ValueTooLarge) then IoEOF else e;
      (s1, KindAhead(Byte, 0, Some(e')))
    case Ok(b) =>
      var s2 := s1.(byteval := 0);
      if b < 0x80 then (s2.(byteval := b), KindAhead(Byte, 0, None))
      else if b < 0xB8 then (s2, KindAhead(String, b - 0x80, None))
      else if b < 0xC0 then LongSize(String, ReadUint(s2, b - 0xB7))
      else if b < 0xF8 then (s2, KindAhead(ListKind, b - 0xC0, None))
      else LongSize(ListKind, ReadUint(s2, b - 0xF7))
  }

  // ---------------------------------------------------------------------------
  // Stream operations
  // ---------------------------------------------------------------------------

  function AtEnd(s: StreamState): (b: bool)
  {
    s.stack != [] && Tos(s).pos == Tos(s).size
  }

  function NextKind(s: StreamState): (r: (StreamState, KindAhead))
  {
    if s.kind.Some? then (s, KindAhead(s.kind.value, s.size, s.kinderr))
    else if AtEnd(s) then (s.(kinderr := None), KindAhead(Byte, 0, Some(EOL)))
    else
      var (s1, k) := ReadKind(s.(kinderr := None));
      var err :=
        if k.err.Some? then k.err
        else if s1.stack == [] then (if s1.limited && k.size > s1.remaining then Some(ValueTooLarge) else None)
        else if k.size > Sub64(Tos(s1).size, Tos(s1).pos) then Some(ElemTooLarge) else None;
      (s1.(kind := Some(k.kind), size := k.size, kinderr := err), k.(err := err))
  }

  function BytesStep(s: StreamState): (r: (StreamState, Result<seq<byte>>))
  {
    var (s1, k) := NextKind(s);
    if k.err.Some? then (s1, Err(k.err.value))
    else match k.kind
      case Byte => (s1.(kind := None), Ok([s1.byteval]))
      case String =>
        var (s2, b) := ReadFull(s1, k.size);
        (s2, if b.Ok? && k.size == 1 && b.value[0] < 128 then Err(CanonSize) else b)
      case ListKind => (s1, Err(ExpectedString))
  }

  function RawStep(s: StreamState): (r: (StreamState, Result<seq<byte>>))
  {
    var (s1, k) := NextKind(s);
    if k.err.Some? then (s1, Err(k.err.value))
    else if k.kind == Byte then (s1.(kind := None), Ok([s1.byteval]))
    else
      var (s2, b) := ReadFull(s1, k.size);
      (s2, match b
           case Ok(v) => Ok((if k.kind == String then StringHeader(k.size) else ListHeader(k.size)) + v)
           case Err(e) => Err(e))
  }

  /** Stream.uint(maxbits) */
  function UintStep(s: StreamState, maxbits: nat): (r: (StreamState, Result<nat>))
  {
    var (s1, k) := NextKind(s);
    if k.err.Some? then (s1, Err(k.err.value))
    else match k.kind
      case Byte => if s1.byteval == 0 then (s1, Err(CanonInt)) else (s1.(kind := None), Ok(s1.byteval))
      case String =>
        if k.size > maxbits / 8 then (s1, Err(UintOverflow))
        else
          var (s2, v) := ReadUint(s1, k.size);
          (s2, if v.Err? then (if v.error == CanonSize then Err(CanonInt) else v)
               else if k.size > 0 && v.value < 128 then Err(CanonSize)
               else v)
      case ListKind => (s1, Err(ExpectedString))
  }

  function ListStart(s: StreamState): (r: (StreamState, Result<nat>))
  {
    var (s1, k) := NextKind(s);
    if k.err.Some? then (s1, Err(k.err.value))
    else if k.kind != ListKind then (s1, Err(ExpectedList))
    else (s1.(stack := s1.stack + [ListPos(0, k.size)], kind := None, size := 0), Ok(k.size))
  }

  function ListEnd(s: StreamState): (r: (StreamState, Option<Error>))
  {
    if s.stack == [] then (s, Some(NotInList))
    else if Tos(s).pos != Tos(s).size then (s, Some(NotAtEOL))
    else
      var s1 := s.(stack := s.stack[..|s.stack| - 1], kind := None, size := 0);
      (if s1.stack == [] then s1 else SetTosPos(s1, Add64(Tos(s1).pos, Tos(s).size)), None)
  }

  /** decodeByteArray into a [n]byte. */
  function ByteArrayStep(s: StreamState, n: nat): (r: (StreamState, Result<seq<byte>>))
  {
    var (s1, k) := NextKind(s);
    if k.err.Some? then (s1, Err(k.err.value))
    else match k.kind
      case Byte =>
        if n == 0 then (s1, Err(StringTooLong))
        else if n > 1 then (s1, Err(StringTooShort))
        else
          var (s2, v) := UintStep(s1, 64);
          (s2, Ok([if v.Ok? then v.value % 256 else 0]))
      case String =>
        if n < k.size then (s1, Err(StringTooLong))
        else if n > k.size then (s1, Err(StringTooShort))
        else
          var (s2, b) := ReadFull(s1, n);
          (s2, if b.Ok? && k.size == 1 && b.value[0] < 128 then Err(CanonSize) else b)
      case ListKind => (s1, Err(ExpectedString))
  }

  // ---------------------------------------------------------------------------
  // The invariant
  // ---------------------------------------------------------------------------

  /** Each list lies inside the part of its parent that has not been accounted for yet. */
  ghost predicate Nested(stack: seq<ListPos>)
  {
    && (forall i | 0 <= i < |stack| :: stack[i].pos <= stack[i].size < U64)
    && (forall i | 0 < i < |stack| :: stack[i - 1].pos + stack[i].size <= stack[i - 1].size)
  }

  function SumPos(stack: seq<ListPos>): (n: nat)
  {
    if stack == [] then 0 else SumPos(stack[..|stack| - 1]) + stack[|stack| - 1].pos
  }

  /** Unread bytes of the outermost list. A parent's pos is advanced only when a child closes, so all positions count. */
  ghost function OuterUnread(stack: seq<ListPos>): (n: int)
  {
    if stack == [] then 0 else stack[0].size - SumPos(stack)
  }

  ghost predicate Inv(s: StreamState)
  {
    && s.remaining < U64 && s.size < U64
    && Nested(s.stack)
    && (s.limited ==> OuterUnread(s.stack) <= s.remaining)
    && (s.kind.Some? && s.kinderr == None ==> SizeFits(s))
    && (s.kind.Some? ==> s.kinderr != Some(EOL) && (s.stack != [] ==> s.kinderr != Some(ValueTooLarge)))
  }

  /** The value ahead fits the innermost list or, at top level, the budget. */
  ghost predicate SizeFits(s: StreamState)
  {
    if s.stack == [] then s.limited ==> s.size <= s.remaining
    else s.size <= Tos(s).size - Tos(s).pos
  }

  lemma {:induction false} InnermostFits(stack: seq<ListPos>)
    requires Nested(stack) && stack != []
    ensures stack[|stack| - 1].size - stack[|stack| - 1].pos <= OuterUnread(stack)
    decreases |stack|
  {
    var front := stack[..|stack| - 1];
    if front != [] {
      assert stack[|stack| - 2].pos + stack[|stack| - 1].size <= stack[|stack| - 2].size;
      InnermostFits(front);
    } else {
      assert SumPos(front) == 0;
    }
  }

  /** Advancing the innermost list by n. */
  lemma AdvanceTos(stack: seq<ListPos>, n: nat)
    requires Nested(stack) && stack != []
    requires n <= stack[|stack| - 1].size - stack[|stack| - 1].pos
    ensures var t := stack[|stack| - 1];
            var stack' := stack[|stack| - 1 := ListPos(t.pos + n, t.size)];
            Nested(stack') && OuterUnread(stack') == OuterUnread(stack) - n
  {
    var t := stack[|stack| - 1];
    var stack' := stack[|stack| - 1 := ListPos(t.pos + n, t.size)];
    assert stack'[..|stack| - 1] == stack[..|stack| - 1];
  }

  lemma PushList(stack: seq<ListPos>, size: nat)
    requires Nested(stack) && size < U64
    requires stack != [] ==> size <= stack[|stack| - 1].size - stack[|stack| - 1].pos
    ensures Nested(stack + [ListPos(0, size)])
    ensures OuterUnread(stack + [ListPos(0, size)]) == if stack == [] then size else OuterUnread(stack)
  {
    assert (stack + [ListPos(0, size)])[..|stack|] == stack;
    assert SumPos(stack + [ListPos(0, size)]) == SumPos(stack);
  }

  lemma PopList(stack: seq<ListPos>)
    requires Nested(stack) && |stack| >= 2 && stack[|stack| - 1].pos == stack[|stack| - 1].size
    ensures var front := stack[..|stack| - 1];
            var t := front[|front| - 1];
            && t.pos + stack[|stack| - 1].size <= t.size
            && Nested(front[|front| - 1 := ListPos(t.pos + stack[|stack| - 1].size, t.size)])
            && OuterUnread(front[|front| - 1 := ListPos(t.pos + stack[|stack| - 1].size, t.size)]) == OuterUnread(stack)
  {
    var front := stack[..|stack| - 1];
    assert front[|front| - 1] == stack[|stack| - 2];
    AdvanceTos(front, stack[|stack| - 1].size);
  }

  // ---------------------------------------------------------------------------
  // What a read does
  // ---------------------------------------------------------------------------

  /** n bytes can be taken without crossing the innermost list, the budget or the end of input. */
  ghost predicate CanTake(s: StreamState, n: nat)
  {
    n <= |s.unread| && InLimit(s, n)
  }

  ghost predicate InLimit(s: StreamState, n: nat)
  {
    if s.stack == [] then s.limited ==> n <= s.remaining
    else n <= Tos(s).size - Tos(s).pos
  }

  /** s' is s with the next n bytes consumed and accounted for. */
  ghost predicate Advanced(s: StreamState, s': StreamState, n: nat)
  {
    && CanTake(s, n)
    && s'.unread == s.unread[n..]
    && s'.limited == s.limited
    && s'.remaining == (if s.limited then s.remaining - n else s.remaining)
    && s'.stack == (if s.stack == [] then [] else SetTosPos(s, Tos(s).pos + n).stack)
  }

  lemma AdvancedTwice(s: StreamState, s1: StreamState, s2: StreamState, m: nat, n: nat)
    requires Advanced(s, s1, m) && Advanced(s1, s2, n)
    ensures Advanced(s, s2, m + n)
  {
    assert s.unread[m..][n..] == s.unread[m + n..];
    if s.stack != [] {
      assert s2.stack == SetTosPos(s, Tos(s).pos + m + n).stack;
    }
  }

  /** Consuming bytes keeps the invariant, and inside a list it always stays within the budget. */
  lemma AdvancedInv(s: StreamState, n: nat)
    requires Inv(s) && InLimit(s, n)
    ensures s.limited ==> n <= s.remaining
    ensures s.stack != [] ==>
              var stack' := SetTosPos(s, Tos(s).pos + n).stack;
              && Tos(s).pos + n < U64
              && Nested(stack') && OuterUnread(stack') == OuterUnread(s.stack) - n
  {
    if s.stack != [] {
      InnermostFits(s.stack);
      AdvanceTos(s.stack, n);
    }
  }

  /** No subtraction or addition wraps. */
  lemma NoWrap(a: nat, b: nat)
    requires a < U64
    ensures b <= a ==> Sub64(a, b) == a - b
    ensures a + b < U64 ==> Add64(a, b) == a + b
  {}

  /** willRead lets through exactly what the innermost list or, at top level, the budget allows. */
  lemma WillReadForm(s: StreamState, n: nat)
    requires Inv(s) && n < U64
    ensures var (s1, err) := WillRead(s, n);
            && Inv(s1) && s1.kind == None && s1.unread == s.unread
            && (err == None <==> InLimit(s, n))
            && (err == None && n <= |s.unread| ==> Advanced(s, s1.(unread := s.unread[n..]), n))
            && (err.Some? ==> s1 == s.(kind := None))
            && (err.Some? ==> err.value == if s.stack == [] then ValueTooLarge else ElemTooLarge)
  {
    hide Sub64, Add64, SumPos;
    if s.stack != [] {
      NoWrap(Tos(s).size, Tos(s).pos);
      NoWrap(Tos(s).pos, n);
    }
    NoWrap(s.remaining, n);
    if InLimit(s, n) {
      AdvancedInv(s, n);
    }
  }

  lemma ReadFullForm(s: StreamState, n: nat)
    requires Inv(s) && n < U64
    ensures var (s1, r) := ReadFull(s, n);
            && Inv(s1) && s1.kind == None
            && (r.Ok? <==> CanTake(s, n))
            && (r.Ok? ==> r.value == s.unread[..n] && Advanced(s, s1, n))
            && (r.Err? ==> r.error == if InLimit(s, n) then UnexpectedEOF
                                      else if s.stack == [] then ValueTooLarge else ElemTooLarge)
            && s1.byteval == s.byteval && s1.kinderr == s.kinderr && s1.size == s.size
  {
    WillReadForm(s, n);
  }

  /** What readUint makes of its bytes: one byte as is, more than one without a leading zero. */
  ghost predicate UintBytes(b: seq<byte>) { |b| <= 1 || b[0] != 0 }

  lemma ReadUintForm(s: StreamState, n: nat)
    requires Inv(s) && n <= 8
    ensures var (s1, r) := ReadUint(s, n);
            && Inv(s1) && s1.kind == None
            && (r.Ok? <==> CanTake(s, n) && UintBytes(s.unread[..n]))
            && (r.Ok? ==> r.value == BeValue(s.unread[..n]) < U64 && Advanced(s, s1, n))
            && (r.Err? ==> r.error == if !CanTake(s, n) then ReadFull(s, n).1.error else CanonSize)
            && s1.byteval == s.byteval && s1.kinderr == s.kinderr && s1.size == s.size
  {
    hide SumPos, OuterUnread, Nested;
    ReadFullForm(s, n);
    if CanTake(s, n) {
      Uint64Bytes(s.unread[..n]);
    }
    if n == 1 && CanTake(s, 1) {
      SingleByte(s.unread[..1]);
    }
    if n == 0 {
      assert s.unread[..0] == [] && s.unread[0..] == s.unread;
      assert s.stack != [] ==> SetTosPos(s, Tos(s).pos).stack == s.stack;
    }
  }

  lemma Uint64Bytes(b: seq<byte>)
    requires |b| <= 8
    ensures BeValue(b) < U64
  {
    hide BeValue;
    BeBound(b);
    PowMonotone(|b|, 8);
    U64IsPow();
  }

  lemma {:induction false} PowMonotone(j: nat, k: nat)
    requires j <= k
    ensures Pow256(j) <= Pow256(k)
    decreases k - j
  {
    if j < k { PowMonotone(j, k - 1); }
  }

  lemma SingleByte(b: seq<byte>)
    requires |b| == 1
    ensures BeValue(b) == b[0]
  {
    assert b[..0] == [];
  }

  // ---------------------------------------------------------------------------
  // What the kind ahead means
  // ---------------------------------------------------------------------------

  lemma CanTakeMore(s: StreamState, s1: StreamState, m: nat, n: nat)
    requires Advanced(s, s1, m)
    ensures CanTake(s1, n) <==> CanTake(s, m + n)
  {
    if s.stack != [] {
      assert Tos(s1).pos == Tos(s).pos + m && Tos(s1).size == Tos(s).size;
    }
  }

  /** Length of the header that starts w. */
  function HeadLen(w: seq<byte>): (n: nat)
    ensures n <= 9
  {
    if w == [] then 1 else 1 + TagExtra(w[0])
  }

  ghost predicate Canonical(h: seq<byte>)
  {
    |h| > 1 ==> h[1] != 0 && HeadSize(h) >= 56
  }

  /** The length bytes after a long tag. */
  lemma ReadTail(s: StreamState, s1: StreamState)
    requires s.unread != [] && Advanced(s, s1, 1) && Inv(s1) && TagExtra(s.unread[0]) > 0
    ensures var e := TagExtra(s.unread[0]); var (s2, r) := ReadUint(s1, e);
            && Inv(s2) && s2.kind == None
            && (r.Ok? && r.value >= 56 <==> CanTake(s, 1 + e) && Canonical(s.unread[..1 + e]))
            && (r.Ok? && r.value >= 56 ==>
                  Advanced(s, s2, 1 + e) && IsHead(s.unread[..1 + e], TagKind(s.unread[0]), r.value))
            && (r.Ok? ==> r.value < U64)
            && (r.Err? ==> r.error in {UnexpectedEOF, CanonSize, if s.stack == [] then ValueTooLarge else ElemTooLarge})
  {
    hide Inv, Nested, SumPos, ReadFull, ReadUint, BeValue, IsHead;
    var e := TagExtra(s.unread[0]);
    ReadUintForm(s1, e);
    ReadFullForm(s1, e);
    CanTakeMore(s, s1, 1, e);
    if CanTake(s, 1 + e) {
      var h := s.unread[..1 + e];
      assert s1.unread[..e] == h[1..];
      if ReadUint(s1, e).1.Ok? {
        AdvancedTwice(s, s1, ReadUint(s1, e).0, 1, e);
        OneByteBelow56(h[1..]);
        if Canonical(h) {
          HeadFromTag(h);
        }
      }
    }
  }

  lemma OneByteBelow56(b: seq<byte>)
    requires |b| >= 1
    ensures |b| == 1 && b[0] == 0 ==> BeValue(b) < 56
  {
    if |b| == 1 { SingleByte(b); }
  }

  /** readKind accepts exactly a canonical header that lies within the limits. */
  lemma ReadKindForm(s: StreamState)
    requires Inv(s)
    ensures var (s1, k) := ReadKind(s); var n := HeadLen(s.unread);
            && Inv(s1) && s1.kind == None && k.size < U64
            && (k.err == None <==> CanTake(s, n) && Canonical(s.unread[..n]))
            && (k.err == None ==>
                  && Advanced(s, s1, n) && IsHead(s.unread[..n], k.kind, k.size)
                  && (k.kind == Byte ==> s.unread[..n] == [s1.byteval]))
            && k.err != Some(EOL) && (s.stack != [] ==> k.err != Some(ValueTooLarge))
  {
    hide Nested, SumPos, ReadFull, ReadUint, BeValue, IsHead;
    ReadFullForm(s, 1);
    if CanTake(s, 1) {
      var s1 := ReadFull(s, 1).0;
      if TagExtra(s.unread[0]) > 0 {
        ReadTail(s, s1.(byteval := 0));
      } else {
        HeadFromTag(s.unread[..1]);
      }
    } else {
      assert ReadByte(s).1 == Err(ReadFull(s, 1).1.error);
      assert ReadKind(s).1.err.Some?;
    }
  }

  /** Kind: cached when armed; otherwise the header just read, or EOL exactly at the end of a list. */
  lemma NextKindForm(s: StreamState)
    requires Inv(s)
    ensures var (s1, k) := NextKind(s);
            && Inv(s1) && k.size < U64
            && (s.kind.Some? ==> s1 == s)
            && (s.kind == None ==> (k.err == Some(EOL) <==> AtEnd(s)))
            && (s.kind.Some? ==> k.err != Some(EOL))
            && (k.err == None ==> s1.kind == Some(k.kind) && s1.size == k.size && s1.kinderr == None)
            && (s.kind == None && k.err == None ==>
                  var n := HeadLen(s.unread);
                  && Advanced(s, s1, n) && IsHead(s.unread[..n], k.kind, k.size)
                  && (k.kind == Byte ==> s.unread[..n] == [s1.byteval]))
            && (s1.stack != [] ==> k.err != Some(ValueTooLarge))
            && |s1.stack| == |s.stack|
  {
    hide Nested, SumPos, OuterUnread, ReadKind, BeValue, IsHead, Sub64;
    if s.kind == None && !AtEnd(s) {
      var s0 := s.(kinderr := None);
      ReadKindForm(s0);
      var s1 := ReadKind(s0).0;
      ReadKindStack(s0);
      if s1.stack != [] {
        NestedTos(s1.stack);
        NoWrap(Tos(s1).size, Tos(s1).pos);
      }
    }
  }

  lemma NestedTos(stack: seq<ListPos>)
    requires Nested(stack) && stack != []
    ensures stack[|stack| - 1].pos <= stack[|stack| - 1].size < U64
  {}

  lemma ReadFullStack(s: StreamState, n: nat)
    ensures |ReadFull(s, n).0.stack| == |s.stack|
  {
    hide Sub64, Add64;
  }

  lemma ReadKindStack(s: StreamState)
    ensures |ReadKind(s).0.stack| == |s.stack|
  {
    hide ReadFull, BeValue;
    ReadFullStack(s, 1);
    var s1 := ReadByte(s).0.(byteval := 0);
    ReadFullStack(s1, 1);
    forall n | 1 < n <= 8
      ensures |ReadFull(s1, n).0.stack| == |s1.stack|
    {
      ReadFullStack(s1, n);
    }
  }

  /** A canonical header whose value lies within the limits is always recognised. */
  lemma NextKindComplete(s: StreamState, h: seq<byte>, kind: Kind, n: nat)
    requires Inv(s) && s.kind == None
    requires IsHead(h, kind, n) && h <= s.unread && InLimit(s, |h| + n)
    ensures var (s1, k) := NextKind(s);
            && k == KindAhead(kind, n, None) && Inv(s1) && s1.kind == Some(kind) && s1.size == n
            && Advanced(s, s1, |h|)
            && (kind == Byte ==> h == [s1.byteval])
  {
    hide Nested, SumPos, OuterUnread, ReadKind, BeValue, IsHead, Sub64;
    HeadTag(h, kind, n);
    assert s.unread[0] == h[0];
    assert h == s.unread[..HeadLen(s.unread)];
    var s0 := s.(kinderr := None);
    ReadKindForm(s0);
    NextKindForm(s);
    var (s1, k) := ReadKind(s0);
    HeadTag(h, k.kind, k.size);
    if s1.stack != [] {
      NestedTos(s1.stack);
      NoWrap(Tos(s1).size, Tos(s1).pos);
    }
  }

  // ---------------------------------------------------------------------------
  // Every run of stream operations keeps the invariant
  // ---------------------------------------------------------------------------

  datatype Op = OpKind | OpBytes | OpRaw | OpUint(maxbits: nat) | OpList | OpListEnd

  function ErrorOf<T>(r: Result<T>): (e: Option<Error>) { if r.Ok? then None else Some(r.error) }

  function Step(s: StreamState, op: Op): (r: (StreamState, Option<Error>))
  {
    match op
    case OpKind => var (s1, k) := NextKind(s); (s1, k.err)
    case OpBytes => var (s1, r) := BytesStep(s); (s1, ErrorOf(r))
    case OpRaw => var (s1, r) := RawStep(s); (s1, ErrorOf(r))
    case OpUint(maxbits) => var (s1, r) := UintStep(s, maxbits); (s1, ErrorOf(r))
    case OpList => var (s1, r) := ListStart(s); (s1, ErrorOf(r))
    case OpListEnd => ListEnd(s)
  }

  function Run(s: StreamState, ops: seq<Op>): (s': StreamState)
    decreases |ops|
  {
    if ops == [] then s else Step(Run(s, ops[..|ops| - 1]), ops[|ops| - 1]).0
  }

  /** Integer types have at most 64 bits. */
  predicate GoOps(ops: seq<Op>) { forall op | op in ops :: op.OpUint? ==> op.maxbits <= 64 }

  /** The value ahead can be read: its size never exceeds the limits. */
  lemma ReadAhead(s: StreamState)
    requires Inv(s) && s.kind.Some? && s.kinderr == None
    ensures var (s1, r) := ReadFull(s, s.size);
            && Inv(s1) && s1.kind == None && |s1.stack| == |s.stack|
            && (r.Ok? <==> CanTake(s, s.size))
            && (r.Ok? ==> |r.value| == s.size)
            && (r.Err? ==> r.error == UnexpectedEOF)
  {
    hide Nested, SumPos, OuterUnread, Sub64, Add64;
    ReadFullForm(s, s.size);
  }

  lemma StepInv(s: StreamState, op: Op)
    requires Inv(s) && GoOps([op])
    ensures var (s1, err) := Step(s, op); Inv(s1) && (s.stack != [] ==> err != Some(ValueTooLarge))
  {
    hide Nested, SumPos, OuterUnread, NextKind, ReadFull, ReadUint, IsHead, StringHeader, ListHeader, Advanced, CanTake;
    assert op in [op];
    if op == OpListEnd {
      ListEndInv(s);
    } else {
      NextKindForm(s);
      var (s1, k) := NextKind(s);
      if k.err == None {
        ReadAhead(s1);
        if op.OpUint? && k.kind == String && k.size <= op.maxbits / 8 {
          ReadUintForm(s1, k.size);
        }
        assert op.OpRaw? && k.kind != Byte && ReadFull(s1, k.size).1.Err? ==>
               RawStep(s).1 == Err(ReadFull(s1, k.size).1.error);
        if op.OpList? && k.kind == ListKind {
          PushList(s1.stack, k.size);
          OuterOfNone();
        }
      }
    }
  }

  lemma OuterOfNone()
    ensures OuterUnread([]) == 0
  {}

  lemma ListEndInv(s: StreamState)
    requires Inv(s)
    ensures Inv(ListEnd(s).0)
  {
    hide SumPos, Add64;
    if |s.stack| >= 2 && AtEnd(s) {
      PopList(s.stack);
      NoWrap(s.stack[|s.stack| - 2].pos, Tos(s).size);
    }
  }

  /** Safety over whole runs: from a fresh stream, whatever operations follow, the invariant holds. */
  lemma {:induction false} RunInv(s: StreamState, ops: seq<Op>)
    requires Inv(s) && GoOps(ops)
    ensures Inv(Run(s, ops))
    decreases |ops|
  {
    if ops != [] {
      RunInv(s, ops[..|ops| - 1]);
      StepInv(Run(s, ops[..|ops| - 1]), ops[|ops| - 1]);
    }
  }

  lemma FreshInv(input: seq<byte>, limit: nat)
    requires limit < U64
    ensures Inv(NewStream(input, None)) && Inv(NewStream(input, Some(limit))) && Inv(NewListStream(input, limit))
  {}

  /**
    In every run: positions never pass sizes, a child fits what its parent has left, the unread
    part of the outermost list is covered by the budget, the budget check never fires inside a
    list, and what the innermost list and the budget have left is computed without wrapping.
    That no operation wraps anywhere is RlpPlain.RunIsPlain.
   */
  lemma RunSafety(s: StreamState, ops: seq<Op>, op: Op)
    requires Inv(s) && GoOps(ops + [op])
    ensures var t := Run(s, ops);
            && (forall i | 0 <= i < |t.stack| :: t.stack[i].pos <= t.stack[i].size)
            && (forall i | 0 < i < |t.stack| :: t.stack[i - 1].pos + t.stack[i].size <= t.stack[i - 1].size)
            && (t.limited ==> OuterUnread(t.stack) <= t.remaining)
            && (t.stack != [] ==> Step(t, op).1 != Some(ValueTooLarge))
            && (t.stack != [] ==>
                  && Sub64(Tos(t).size, Tos(t).pos) == Tos(t).size - Tos(t).pos
                  && forall n | InLimit(t, n) ::
                       && Add64(Tos(t).pos, n) == Tos(t).pos + n
                       && (t.limited ==> Sub64(t.remaining, n) == t.remaining - n))
  {
    hide Step, SumPos, OuterUnread, Sub64, Add64;
    assert forall o | o in ops :: o in ops + [op];
    assert op in ops + [op] && GoOps([op]);
    RunInv(s, ops);
    var t := Run(s, ops);
    StepInv(t, op);
    if t.stack != [] {
      NoWrap(Tos(t).size, Tos(t).pos);
      forall n: nat | InLimit(t, n)
        ensures Add64(Tos(t).pos, n) == Tos(t).pos + n
        ensures t.limited ==> Sub64(t.remaining, n) == t.remaining - n
      {
        AdvancedInv(t, n);
        NoWrap(Tos(t).pos, n);
        NoWrap(t.remaining, n);
      }
    }
  }

  /** Counting the outermost list's own position alone would not do: at depth two it lags behind. */
  lemma OuterPosAloneLags()
    ensures var t := Run(NewStream([0xC2, 0xC1, 0x05], Some(3)), [OpList, OpList, OpKind]);
            t.limited && |t.stack| == 2 && t.stack[0].size - t.stack[0].pos > t.remaining
  {
    var s0 := NewStream([0xC2, 0xC1, 0x05], Some(3));
    var s1 := StreamState([0xC1, 0x05], 2, true, None, 0, 0, None, [ListPos(0, 2)]);
    var s2 := StreamState([0x05], 1, true, None, 0, 0, None, [ListPos(1, 2), ListPos(0, 1)]);
    var s3 := StreamState([], 0, true, Some(Byte), 0, 5, None, [ListPos(1, 2), ListPos(1, 1)]);
    assert Step(s0, OpList).0 == s1;
    assert Step(s1, OpList).0 == s2;
    assert Step(s2, OpKind).0 == s3;
    assert [OpList, OpList, OpKind][..2] == [OpList, OpList];
    assert [OpList, OpList][..1] == [OpList] && [OpList][..0] == [];
    assert Run(s0, []) == s0;
    assert Run(s0, [OpList]) == s1;
    assert Run(s0, [OpList, OpList]) == s2;
  }

  /** The budget of a stream over a byte slice tracks the input: it equals the unread length in every run. */
  lemma {:induction false} RunConserves(s: StreamState, ops: seq<Op>)
    requires Inv(s) && GoOps(ops) && s.limited && s.remaining == |s.unread|
    ensures Run(s, ops).limited && Run(s, ops).remaining == |Run(s, ops).unread|
    decreases |ops|
  {
    if ops != [] {
      var t := Run(s, ops[..|ops| - 1]);
      RunConserves(s, ops[..|ops| - 1]);
      RunInv(s, ops[..|ops| - 1]);
      StepConserves(t, ops[|ops| - 1]);
    }
  }

  predicate Tracks(s: StreamState) { s.limited && s.remaining == |s.unread| }

  lemma ReadConserves(s: StreamState, n: nat)
    requires Inv(s) && n < U64 && Tracks(s)
    ensures Tracks(ReadFull(s, n).0)
  {
    hide Nested, SumPos, OuterUnread;
    ReadFullForm(s, n);
    WillReadForm(s, n);
    if InLimit(s, n) { AdvancedInv(s, n); }
  }

  lemma ReadUintConserves(s: StreamState, n: nat)
    requires Inv(s) && n <= 8 && Tracks(s)
    ensures Tracks(ReadUint(s, n).0)
  {
    hide Inv, ReadFull, BeValue, Tracks;
    ReadConserves(s, n);
    TracksKind(s);
  }

  lemma TracksKind(s: StreamState)
    ensures Tracks(s) <==> Tracks(s.(kind := None))
  {}

  lemma ReadKindConserves(s: StreamState)
    requires Inv(s) && Tracks(s)
    ensures Tracks(ReadKind(s).0)
  {
    hide Inv, ReadFull, ReadUint, BeValue;
    ReadConserves(s, 1);
    var (s1, b) := ReadByte(s);
    if b.Ok? && TagExtra(b.value) > 0 {
      ByteReadInv(s);
      ReadUintConserves(s1.(byteval := 0), TagExtra(b.value));
    }
  }

  lemma ByteReadInv(s: StreamState)
    requires Inv(s)
    ensures Inv(ReadByte(s).0.(byteval := 0))
  {
    hide Nested, SumPos, OuterUnread, ReadFull;
    ReadFullForm(s, 1);
  }

  lemma StepConserves(s: StreamState, op: Op)
    requires Inv(s) && GoOps([op]) && Tracks(s)
    ensures Tracks(Step(s, op).0)
  {
    hide Inv, ReadKind, ReadFull, ReadUint, IsHead, StringHeader, ListHeader;
    assert op in [op];
    if s.kind == None {
      KindErrInv(s);
      ReadKindConserves(s.(kinderr := None));
    }
    NextKindForm(s);
    var (s1, k) := NextKind(s);
    ReadConserves(s1, k.size);
    if op.OpUint? && k.size <= 8 {
      ReadUintConserves(s1, k.size);
    }
  }

  lemma KindErrInv(s: StreamState)
    requires Inv(s) && s.kind == None
    ensures Inv(s.(kinderr := None))
  {}
}
