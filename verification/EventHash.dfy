/** Event.Hash end to end: the encoder writing into the Keccak-256 sponge. */
module EventHash {
  import opened Basics
  import opened RlpSpec
  import opened RlpTypes
  import RlpEvent
  import Sponge
  import KeccakLanes

  /** Bytes as the sponge takes them. */
  function Octets(s: seq<byte>): (r: seq<KeccakLanes.Byte>)
    ensures |r| == |s|
  {
    seq(|s|, i requires 0 <= i < |s| => s[i] as bv8)
  }

  lemma OctetsConcat(s: seq<byte>, t: seq<byte>)
    ensures Octets(s + t) == Octets(s) + Octets(t)
  {}

  /** rlpHash on an event's fields: each write of the encoder goes into the sponge. */
  method Hash(e: RlpEvent.Event) returns (h: seq<KeccakLanes.Byte>)
    requires Fits(ToItem(RlpEvent.HashFields(e)))
    ensures h == Sponge.SpongeOutput(Octets(RlpEvent.Preimage(e)), 136, 0x01, 32)
    ensures e.timeStamp >= 0 ==>
      h == Sponge.SpongeOutput(
             Octets(Enc(List([Str(BigEndian(e.timeStamp)), List(seq(e.trans, _ => List([]))), Str(e.selfPart),
                              List([Str(e.sigAddr)]), Str(e.otherPartH)]))), 136, 0x01, 32)
  {
    hide RlpEvent.Preimage, Octets, Concat, Sponge.State.Valid, Sponge.State.Digest, Sponge.SpongeOutput;
    var hw := new Sponge.State(136, 0x01, 32);
    var ws := RlpEvent.HashWrites(e);
    NoOctets();
    assert ws[..0] == [];
    for i := 0 to |ws|
      invariant fresh(hw) && fresh(hw.a) && fresh(hw.storage)
      invariant hw.Valid() && !hw.squeezing && hw.msg == Octets(Concat(ws[..i]))
    {
      ConcatNext(ws, i);
      OctetsConcat(Concat(ws[..i]), ws[i]);
      var n := hw.Write(Octets(ws[i]));
    }
    assert ws[..|ws|] == ws;
    var sum := hw.Sum([]);
    h := sum.value;
    assert [] + h == h;
    if e.timeStamp >= 0 { RlpEvent.PreimageIs(e); }
  }

  lemma NoOctets()
    ensures Octets(Concat([])) == []
  {}
}
