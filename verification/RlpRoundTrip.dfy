/** Encoder and decoder together: each undoes the other, for every type and for generic items. */
module RlpRoundTrip {
  import opened Basics
  import opened RlpSpec
  import opened RlpTypes
  import RlpStream
  import RlpReader
  import RlpDecode

  lemma {:induction false} TypedIsGo(v: Value, t: Schema)
    requires HasType(v, t) && Supported(t)
    ensures GoValue(v)
    decreases v
  {
    if v.UintV? {
      U64IsPow();
      RlpStream.PowMonotone(t.bits / 8, 8);
    } else if v.ListV? || v.StructV? {
      forall w | w in v.vs
        ensures GoValue(w)
      {
        var i :| 0 <= i < |v.vs| && v.vs[i] == w;
        TypedIsGo(w, if t.Any? then Any else if t.ListOf? then t.elem else t.fields[i]);
      }
    }
  }

  /** DecodeBytes(EncodeToBytes(v)) is v, for every value of every supported type. */
  method RoundTrip(v: Value, t: Schema) returns (r: Result<Value>)
    requires HasType(v, t) && Supported(t) && Fits(ToItem(v))
    ensures r == Ok(v)
  {
    hide Enc, ToItem, GoValue, Writable, HasType, Supported;
    TypedIsGo(v, t);
    TypedIsWritable(v, t);
    var b := RlpReader.EncodeToBytes(v);
    r := RlpDecode.DecodeBytes(b.value, t);
  }

  /** Generic decoding accepts exactly the encodings of items, and re-encoding gives the bytes back. */
  method Reencode(b: seq<byte>) returns (r: Result<seq<byte>>)
    requires |b| < U64
    ensures r.Ok? ==> r.value == b
    ensures r.Ok? <==> exists x: Item :: Enc(x) == b
  {
    hide Enc, ToItem, GoValue, Writable, HasType;
    var v := RlpDecode.DecodeBytes(b, Any);
    forall x: Item | Enc(x) == b
      ensures v.Ok?
    {
      var w := FromItem(x);
      assert HasType(w, Any) && Enc(ToItem(w)) == b;
    }
    if v.Err? {
      return Err(v.error);
    }
    assert Enc(ToItem(v.value)) == b;
    AnySupported();
    TypedIsGo(v.value, Any);
    TypedIsWritable(v.value, Any);
    r := RlpReader.EncodeToBytes(v.value);
  }

  lemma AnySupported()
    ensures Supported(Any)
  {}
}
