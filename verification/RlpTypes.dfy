/**
  The Go values package rlp encodes and decodes, the types it decodes them into, and the
  item each value stands for. Reflection is replaced by an explicit schema.
 */
module RlpTypes {
  import opened Basics
  import opened RlpSpec

  /**
    `Any` is `interface{}`: byte strings and lists of `Any`. `ByteArray(n)` is `[n]byte`,
    `Bytes` a byte slice or a Go string, `Uint(bits)` an unsigned integer type.
   */
  datatype Schema =
    | Uint(bits: nat)
    | BigInt
    | Bytes
    | ByteArray(n: nat)
    | Any
    | ListOf(elem: Schema)
    | Struct(fields: seq<Schema>)

  datatype Value =
    | UintV(n: nat)
    | BigV(i: int)
    | BytesV(s: seq<byte>)
    | ListV(vs: seq<Value>)
    | StructV(vs: seq<Value>)

  /** The types the stream decodes faithfully: `[1]byte` is excluded, see RlpMeaning.ByteArrayStaysArmed. */
  predicate Supported(t: Schema)
  {
    match t
    case Uint(bits) => bits in {8, 16, 32, 64}
    case ByteArray(n) => n != 1
    case ListOf(elem) => Supported(elem)
    case Struct(fields) => forall f | f in fields :: Supported(f)
    case _ => true
  }

  predicate HasType(v: Value, t: Schema)
    decreases v, 0
  {
    match t
    case Uint(bits) => v.UintV? && v.n < Pow256(bits / 8)
    case BigInt => v.BigV? && v.i >= 0
    case Bytes => v.BytesV?
    case ByteArray(n) => v.BytesV? && |v.s| == n
    case Any => v.BytesV? || (v.ListV? && HasElemType(v.vs, Any))
    case ListOf(elem) => v.ListV? && HasElemType(v.vs, elem)
    case Struct(fields) => v.StructV? && |v.vs| == |fields| && HasFieldTypes(v.vs, fields)
  }

  predicate HasElemType(vs: seq<Value>, t: Schema)
    decreases vs, 0
  {
    forall i | 0 <= i < |vs| :: HasType(vs[i], t)
  }

  predicate HasFieldTypes(vs: seq<Value>, ts: seq<Schema>)
    requires |vs| <= |ts|
    decreases vs, 0
  {
    forall i | 0 <= i < |vs| :: HasType(vs[i], ts[i])
  }

  function Abs(i: int): (n: nat) { if i < 0 then -i else i }

  /** The item a value is written as. `big.Int.Bytes` yields the magnitude. */
  function ToItem(v: Value): (x: Item)
    decreases v, 0
  {
    match v
    case UintV(n) => Str(BigEndian(n))
    case BigV(i) => Str(BigEndian(Abs(i)))
    case BytesV(s) => Str(s)
    case ListV(vs) => List(ToItems(vs))
    case StructV(vs) => List(ToItems(vs))
  }

  function ToItems(vs: seq<Value>): (xs: seq<Item>)
    ensures |xs| == |vs|
    ensures forall i | 0 <= i < |vs| :: xs[i] == ToItem(vs[i])
    decreases vs, 0
  {
    if vs == [] then [] else ToItems(vs[..|vs| - 1]) + [ToItem(vs[|vs| - 1])]
  }

  /** The `interface{}` value that decoding an item generically yields. */
  function FromItem(x: Item): (v: Value)
    ensures ToItem(v) == x && HasType(v, Any)
  {
    match x
    case Str(s) => BytesV(s)
    case List(items) =>
      var vs := seq(|items|, i requires 0 <= i < |items| => FromItem(items[i]));
      assert ToItems(vs) == items;
      ListV(vs)
  }

  /** Within one type, a value is determined by its item. */
  lemma {:induction false} ToItemInjective(v: Value, w: Value, t: Schema)
    requires HasType(v, t) && HasType(w, t) && ToItem(v) == ToItem(w)
    ensures v == w
    decreases v, 0
  {
    match t
    case Uint(_) => BeRoundTrip(v.n); BeRoundTrip(w.n);
    case BigInt => BeRoundTrip(v.i); BeRoundTrip(w.i);
    case Bytes =>
    case ByteArray(_) =>
    case Any =>
      if v.ListV? { ElemsInjective(v.vs, w.vs, seq(|v.vs|, _ => Any)); }
    case ListOf(elem) => ElemsInjective(v.vs, w.vs, seq(|v.vs|, _ => elem));
    case Struct(fields) => ElemsInjective(v.vs, w.vs, fields);
  }

  lemma {:induction false} ElemsInjective(vs: seq<Value>, ws: seq<Value>, ts: seq<Schema>)
    requires |vs| <= |ts| && |ws| <= |ts|
    requires HasFieldTypes(vs, ts) && HasFieldTypes(ws, ts)
    requires ToItems(vs) == ToItems(ws)
    ensures vs == ws
    decreases vs, 0
  {
    assert |vs| == |ToItems(ws)| == |ws|;
    forall i | 0 <= i < |vs|
      ensures vs[i] == ws[i]
    {
      assert ToItem(vs[i]) == ToItems(vs)[i] == ToItem(ws[i]);
      ToItemInjective(vs[i], ws[i], ts[i]);
    }
  }

  lemma ToItemsSnoc(vs: seq<Value>, v: Value)
    ensures ToItems(vs + [v]) == ToItems(vs) + [ToItem(v)]
  {
    assert (vs + [v])[..|vs|] == vs;
  }

  /** Unsigned integers are uint64 values. */
  predicate GoValue(v: Value)
    decreases v
  {
    match v
    case UintV(n) => n < U64
    case ListV(vs) => forall w | w in vs :: GoValue(w)
    case StructV(vs) => forall w | w in vs :: GoValue(w)
    case _ => true
  }

  /** What the writers can encode: no negative `*big.Int` anywhere. */
  predicate Writable(v: Value)
    decreases v
  {
    match v
    case BigV(i) => i >= 0
    case ListV(vs) => forall w | w in vs :: Writable(w)
    case StructV(vs) => forall w | w in vs :: Writable(w)
    case _ => true
  }

  lemma {:induction false} TypedIsWritable(v: Value, t: Schema)
    requires HasType(v, t)
    ensures Writable(v)
    decreases v
  {
    if v.ListV? || v.StructV? {
      forall w | w in v.vs
        ensures Writable(w)
      {
        var i :| 0 <= i < |v.vs| && v.vs[i] == w;
        TypedIsWritable(w, if t.Any? then Any else if t.ListOf? then t.elem else t.fields[i]);
      }
    }
  }
}
