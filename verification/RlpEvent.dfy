/**
  core/types.go on top of package rlp: an Event survives its own encoding, and the five fields
  that Event.Hash feeds to the hash function are encoded injectively.
 */
module RlpEvent {
  import opened Basics
  import opened RlpSpec
  import opened RlpTypes
  import RlpReader
  import RlpDecode

  /** `Transaction` is an empty struct, so a slice of them is a count. */
  datatype Event = Event(
    timeStamp: int,
    trans: nat,
    selfPart: seq<byte>,
    selfHash: seq<byte>,
    sigAddr: seq<byte>,
    otherPartH: seq<byte>,
    otherPartA: seq<byte>,
    roundID: int
  )

  /** Hash is [32]byte, Address is [20]byte. */
  predicate WellTyped(e: Event)
  {
    |e.selfPart| == |e.selfHash| == |e.otherPartH| == 32 && |e.sigAddr| == |e.otherPartA| == 20
  }

  const TransType: Schema := ListOf(Struct([]))

  const SigType: Schema := Struct([ByteArray(20)])

  const EventType: Schema :=
    Struct([BigInt, TransType, ByteArray(32), ByteArray(32), SigType, ByteArray(32), ByteArray(20), BigInt])

  function TransValue(n: nat): (v: Value) { ListV(seq(n, _ => StructV([]))) }

  function ToValue(e: Event): (v: Value)
  {
    StructV([BigV(e.timeStamp), TransValue(e.trans), BytesV(e.selfPart), BytesV(e.selfHash),
             StructV([BytesV(e.sigAddr)]), BytesV(e.otherPartH), BytesV(e.otherPartA), BigV(e.roundID)])
  }

  lemma FieldTyped(v: Value, t: Schema, i: nat)
    requires HasType(v, t) && t.Struct? && i < |t.fields|
    ensures v.StructV? && |v.vs| == |t.fields| && HasType(v.vs[i], t.fields[i])
  {}

  function FromValue(v: Value): (e: Event)
    requires HasType(v, EventType)
  {
    FieldTyped(v, EventType, 0); FieldTyped(v, EventType, 1); FieldTyped(v, EventType, 2); FieldTyped(v, EventType, 3);
    FieldTyped(v, EventType, 4); FieldTyped(v, EventType, 5); FieldTyped(v, EventType, 6); FieldTyped(v, EventType, 7);
    FieldTyped(v.vs[4], SigType, 0);
    Event(v.vs[0].i, |v.vs[1].vs|, v.vs[2].s, v.vs[3].s, v.vs[4].vs[0].s, v.vs[5].s, v.vs[6].s, v.vs[7].i)
  }

  lemma EventHasType(e: Event)
    requires WellTyped(e) && e.timeStamp >= 0 && e.roundID >= 0
    ensures HasType(ToValue(e), EventType) && FromValue(ToValue(e)) == e
  {
    TransHasType(e.trans);
    assert HasType(StructV([BytesV(e.sigAddr)]), SigType);
  }

  lemma TransHasType(n: nat)
    ensures HasType(TransValue(n), TransType)
  {
    assert HasType(StructV([]), Struct([]));
  }

  /**
    Encoding an event and decoding the bytes gives the event back; the only events that cannot
    be encoded are those with a negative big integer.
   */
  method EventRoundTrip(e: Event) returns (r: Result<Event>)
    requires WellTyped(e) && Fits(ToItem(ToValue(e)))
    ensures r == if e.timeStamp >= 0 && e.roundID >= 0 then Ok(e) else Err(NegativeBigInt)
  {
    hide HasType, ToItem, Enc, ToValue, Fits;
    EventGo(e);
    var b := RlpReader.EncodeToBytes(ToValue(e));
    if b.Err? {
      return Err(b.error);
    }
    EventHasType(e);
    EventTypeSupported();
    FitsIs(ToItem(ToValue(e)));
    var v := RlpDecode.DecodeBytes(b.value, EventType);
    r := Ok(FromValue(v.value));
  }

  lemma FitsIs(x: Item)
    requires Fits(x)
    ensures |Enc(x)| < U64
  {}

  lemma EventGo(e: Event)
    ensures GoValue(ToValue(e))
    ensures Writable(ToValue(e)) <==> e.timeStamp >= 0 && e.roundID >= 0
  {
    var vs := ToValue(e).vs;
    assert vs[0] in vs && vs[7] in vs;
    assert Writable(TransValue(e.trans)) && GoValue(TransValue(e.trans));
    assert Writable(StructV([BytesV(e.sigAddr)])) && GoValue(StructV([BytesV(e.sigAddr)]));
  }

  lemma EventTypeSupported()
    ensures Supported(EventType)
  {
    assert Supported(TransType) && Supported(SigType);
  }

  // ---------------------------------------------------------------------------
  // The hash preimage
  // ---------------------------------------------------------------------------

  /** The `[]interface{}` that Event.Hash encodes. */
  function HashFields(e: Event): (v: Value)
  {
    ListV([BigV(e.timeStamp), TransValue(e.trans), BytesV(e.selfPart), StructV([BytesV(e.sigAddr)]),
           BytesV(e.otherPartH)])
  }

  /** The writes that reach the hash function: rlpHash ignores the encoder's error, which then wrote nothing. */
  method HashWrites(e: Event) returns (ws: seq<seq<byte>>)
    requires Fits(ToItem(HashFields(e)))
    ensures Concat(ws) == Preimage(e)
    ensures e.timeStamp < 0 ==> ws == []
    ensures e.timeStamp >= 0 ==>
      Concat(ws) == Enc(List([Str(BigEndian(e.timeStamp)), List(seq(e.trans, _ => List([]))), Str(e.selfPart),
                              List([Str(e.sigAddr)]), Str(e.otherPartH)]))
  {
    if e.timeStamp >= 0 { PreimageIs(e); }
    HashFieldsGo(e);
    ConcatNone<byte>();
    var r := RlpReader.EncodeWrites(HashFields(e));
    ws := if r.Ok? then r.value else [];
  }

  lemma HashFieldsGo(e: Event)
    ensures GoValue(HashFields(e)) && (Writable(HashFields(e)) <==> e.timeStamp >= 0)
  {
    var vs := HashFields(e).vs;
    assert vs[0] in vs;
    assert Writable(TransValue(e.trans)) && GoValue(TransValue(e.trans));
    assert Writable(StructV([BytesV(e.sigAddr)])) && GoValue(StructV([BytesV(e.sigAddr)]));
  }

  function Preimage(e: Event): (b: seq<byte>)
  {
    if e.timeStamp < 0 then [] else Enc(ToItem(HashFields(e)))
  }

  /** The item that is hashed: time stamp, transactions, self-parent, signature, other parent, in this order. */
  lemma PreimageIs(e: Event)
    requires e.timeStamp >= 0
    ensures Preimage(e) == Enc(List([Str(BigEndian(e.timeStamp)), List(seq(e.trans, _ => List([]))), Str(e.selfPart),
                                     List([Str(e.sigAddr)]), Str(e.otherPartH)]))
  {
    TransItem(e.trans);
    SigItem(e.sigAddr);
    assert ToItem(HashFields(e)).items == [Str(BigEndian(e.timeStamp)), List(seq(e.trans, _ => List([]))), Str(e.selfPart),
                                           List([Str(e.sigAddr)]), Str(e.otherPartH)];
  }

  lemma TransItem(n: nat)
    ensures ToItem(TransValue(n)) == List(seq(n, _ => List([])))
  {
    assert ToItem(StructV([])) == List([]);
    assert ToItem(TransValue(n)).items == seq(n, _ => List([]));
  }

  lemma SigItem(addr: seq<byte>)
    ensures ToItem(StructV([BytesV(addr)])) == List([Str(addr)])
  {
    assert ToItem(StructV([BytesV(addr)])).items == [Str(addr)];
  }

  /** The item an event is sent as: all eight fields, in the order of their declaration. */
  lemma EventItem(e: Event)
    requires e.timeStamp >= 0 && e.roundID >= 0
    ensures ToItem(ToValue(e)) ==
      List([Str(BigEndian(e.timeStamp)), List(seq(e.trans, _ => List([]))), Str(e.selfPart), Str(e.selfHash),
            List([Str(e.sigAddr)]), Str(e.otherPartH), Str(e.otherPartA), Str(BigEndian(e.roundID))])
  {
    TransItem(e.trans);
    SigItem(e.sigAddr);
    assert ToItem(ToValue(e)).items ==
      [Str(BigEndian(e.timeStamp)), List(seq(e.trans, _ => List([]))), Str(e.selfPart), Str(e.selfHash),
       List([Str(e.sigAddr)]), Str(e.otherPartH), Str(e.otherPartA), Str(BigEndian(e.roundID))];
  }

  predicate SameHashFields(e: Event, f: Event)
  {
    && e.timeStamp == f.timeStamp && e.trans == f.trans && e.selfPart == f.selfPart
    && e.sigAddr == f.sigAddr && e.otherPartH == f.otherPartH
  }

  const HashType: Schema := Struct([BigInt, TransType, ByteArray(32), SigType, ByteArray(32)])

  /**
    Two events share a preimage exactly when their five hashed fields agree, or both time stamps
    are negative. SelfHash, OtherPartA and RoundID are not covered.
   */
  lemma PreimageInjective(e: Event, f: Event)
    requires WellTyped(e) && WellTyped(f) && Fits(ToItem(HashFields(e)))
    ensures Preimage(e) == Preimage(f) <==>
              || (e.timeStamp < 0 && f.timeStamp < 0)
              || (&& e.timeStamp == f.timeStamp && e.trans == f.trans && e.selfPart == f.selfPart
                  && e.sigAddr == f.sigAddr && e.otherPartH == f.otherPartH)
  {
    hide Enc, ToItem, HasType;
    EncNonEmpty(ToItem(HashFields(e)));
    EncNonEmpty(ToItem(HashFields(f)));
    if Preimage(e) == Preimage(f) && e.timeStamp >= 0 {
      EncInjective(ToItem(HashFields(e)), ToItem(HashFields(f)));
      var v, w := StructV(HashFields(e).vs), StructV(HashFields(f).vs);
      HashFieldsType(e);
      HashFieldsType(f);
      ListOrStruct(HashFields(e).vs);
      ListOrStruct(HashFields(f).vs);
      ToItemInjective(v, w, HashType);
      assert v.vs[0] == w.vs[0] && v.vs[1] == w.vs[1] && v.vs[2] == w.vs[2] && v.vs[3] == w.vs[3] && v.vs[4] == w.vs[4];
      assert v.vs[3].vs[0] == w.vs[3].vs[0];
      assert |v.vs[1].vs| == |w.vs[1].vs|;
    }
  }

  /** Two different events from before 1970 that hash alike. */
  lemma NegativeTimesCollide()
    ensures var zeros, ones, addr := seq(32, _ => 0), seq(32, _ => 1), seq(20, _ => 0);
            var e, f := Event(-1, 0, zeros, zeros, addr, zeros, addr, 0), Event(-1, 0, ones, zeros, addr, zeros, addr, 0);
            && WellTyped(e) && WellTyped(f) && e.selfPart != f.selfPart && !SameHashFields(e, f)
            && Preimage(e) == Preimage(f) == []
  {
    assert seq<byte>(32, _ => 0)[0] != seq<byte>(32, _ => 1)[0];
  }

  lemma ListOrStruct(vs: seq<Value>)
    ensures ToItem(ListV(vs)) == ToItem(StructV(vs))
  {}

  lemma HashFieldsType(e: Event)
    requires WellTyped(e) && e.timeStamp >= 0
    ensures HasType(StructV(HashFields(e).vs), HashType)
  {
    TransHasType(e.trans);
    assert HasType(StructV([BytesV(e.sigAddr)]), SigType);
  }
}
