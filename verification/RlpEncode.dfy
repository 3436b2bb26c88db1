/**
  The encoder of rlp/encode.go: string data goes to one flat buffer, list headers are recorded
  on the side, and the headers are spliced in afterwards by `ToBytes`, `ToWriter` or `EncReader`.
 */
module RlpEncode {
  import opened Basics
  import opened RlpSpec
  import opened RlpTypes

  // ---------------------------------------------------------------------------
  // Sizes and headers
  // ---------------------------------------------------------------------------

  /** The least number of bytes, at least one, that hold i. */
  method IntSize(i: nat) returns (size: nat)
    ensures size == if i == 0 then 1 else |BigEndian(i)|
  {
    size := 1;
    var j: nat := i / 256;
    while j != 0
      invariant i == 0 ==> j == 0 && size == 1
      invariant i != 0 ==> size + |BigEndian(j)| == |BigEndian(i)|
      decreases j
    {
      j := j / 256;
      size := size + 1;
    }
  }

  /** i >> 8p */
  function Shr8(i: nat, p: nat): (r: nat)
  {
    if p == 0 then i else Shr8(i / 256, p - 1)
  }

  lemma {:induction false} BigEndianAt(i: nat, j: nat)
    requires j < |BigEndian(i)|
    ensures BigEndian(i)[j] == Shr8(i, |BigEndian(i)| - 1 - j) % 256
  {
    if j < |BigEndian(i)| - 1 {
      BigEndianAt(i / 256, j);
    }
  }

  /** How many bytes putint's switch picks. */
  function PutIntSize(i: nat): (k: nat)
  {
    if i < 0x100 then 1
    else if i < 0x1_0000 then 2
    else if i < 0x100_0000 then 3
    else if i < 0x1_0000_0000 then 4
    else if i < 0x100_0000_0000 then 5
    else if i < 0x1_0000_0000_0000 then 6
    else if i < 0x100_0000_0000_0000 then 7
    else 8
  }

  lemma PutIntSizeIsLength(i: nat)
    requires 0 < i < U64
    ensures PutIntSize(i) == |BigEndian(i)|
  {
    var k := PutIntSize(i);
    PowTable();
    BeLength(i, k);
    BeLength(i, k - 1);
  }

  lemma PowTable()
    ensures Pow256(0) == 1 && Pow256(1) == 0x100 && Pow256(2) == 0x1_0000
    ensures Pow256(3) == 0x100_0000 && Pow256(4) == 0x1_0000_0000
    ensures Pow256(5) == 0x100_0000_0000 && Pow256(6) == 0x1_0000_0000_0000
    ensures Pow256(7) == 0x100_0000_0000_0000 && Pow256(8) == U64
  {
    assert Pow256(2) == 0x1_0000;
    assert Pow256(4) == 0x1_0000_0000;
    assert Pow256(6) == 0x1_0000_0000_0000;
  }

  /** Writes i at `at` in big-endian order with the fewest bytes; a zero takes one byte. */
  method PutInt(buf: array<byte>, at: nat, i: nat) returns (size: nat)
    requires i < U64 && at + PutIntSize(i) <= buf.Length
    modifies buf
    ensures size == PutIntSize(i)
    ensures buf[at..at + size] == if i == 0 then [0] else BigEndian(i)
    ensures forall j | 0 <= j < buf.Length && !(at <= j < at + size) :: buf[j] == old(buf[j])
  {
    size := PutIntSize(i);
    forall k | 0 <= k < size {
      buf[at + k] := Shr8(i, size - 1 - k) % 256;
    }
    if i != 0 {
      PutIntSizeIsLength(i);
      forall k | 0 <= k < size
        ensures buf[at + k] == BigEndian(i)[k]
      {
        BigEndianAt(i, k);
      }
    }
  }

  method HeadSizeOf(size: nat) returns (k: nat)
    ensures k == |ListHeader(size)| == |StringHeader(size)|
  {
    if size < 56 {
      k := 1;
    } else {
      k := IntSize(size);
      k := 1 + k;
    }
  }

  method PutHead(buf: array<byte>, at: nat, small: byte, large: byte, size: nat) returns (n: nat)
    requires size < U64 && at + |Header(small, large, size)| <= buf.Length
    modifies buf
    ensures n == |Header(small, large, size)|
    ensures buf[at..at + n] == Header(small, large, size)
    ensures forall j | 0 <= j < buf.Length && !(at <= j < at + n) :: buf[j] == old(buf[j])
  {
    hide BigEndian;
    if size < 56 {
      buf[at] := (small + size) % 256;
      n := 1;
    } else {
      n := PutLongHead(buf, at, large, size);
    }
  }

  method PutLongHead(buf: array<byte>, at: nat, large: byte, size: nat) returns (n: nat)
    requires 56 <= size < U64 && at + 1 + |BigEndian(size)| <= buf.Length
    modifies buf
    ensures n == 1 + |BigEndian(size)|
    ensures buf[at..at + n] == [(large + |BigEndian(size)|) % 256] + BigEndian(size)
    ensures forall j | 0 <= j < buf.Length && !(at <= j < at + n) :: buf[j] == old(buf[j])
  {
    hide *;
    PutIntSizeIsLength(size);
    var k := PutInt(buf, at + 1, size);
    ghost var be := buf[at + 1..at + 1 + k];
    var tag: byte := (large + k) % 256;
    buf[at] := tag;
    n := k + 1;
    assert buf[at + 1..at + 1 + k] == be;
    assert buf[at..at + n] == [tag] + be;
  }

  // ---------------------------------------------------------------------------
  // What the buffer holds: flat data and side headers
  // ---------------------------------------------------------------------------

  /** offset: index of the header in the string data; size: payload size, headers included. */
  datatype ListHead = ListHead(offset: nat, size: nat)

  /** The string data of an item: its encoding without any list header. */
  function Flat(x: Item): (s: seq<byte>)
    decreases x, 0
  {
    match x
    case Str(_) => Enc(x)
    case List(items) => FlatAll(items)
  }

  function FlatAll(xs: seq<Item>): (s: seq<byte>)
    decreases xs, 0
  {
    if xs == [] then [] else FlatAll(xs[..|xs| - 1]) + Flat(xs[|xs| - 1])
  }

  /** The list headers of an item whose string data starts at `off`, outer before inner. */
  function Heads(x: Item, off: nat): (hs: seq<ListHead>)
    decreases x, 0
  {
    match x
    case Str(_) => []
    case List(items) => [ListHead(off, |EncAll(items)|)] + HeadsAll(items, off)
  }

  function HeadsAll(xs: seq<Item>, off: nat): (hs: seq<ListHead>)
    decreases xs, 0
  {
    if xs == [] then []
    else
      var front := xs[..|xs| - 1];
      HeadsAll(front, off) + Heads(xs[|xs| - 1], off + |FlatAll(front)|)
  }

  /** Total size of the encoded list headers of an item. */
  function HeadBytes(x: Item): (n: nat)
    decreases x, 0
  {
    match x
    case Str(_) => 0
    case List(items) => |ListHeader(|EncAll(items)|)| + HeadBytesAll(items)
  }

  function HeadBytesAll(xs: seq<Item>): (n: nat)
    decreases xs, 0
  {
    if xs == [] then 0 else HeadBytesAll(xs[..|xs| - 1]) + HeadBytes(xs[|xs| - 1])
  }

  lemma {:induction false} FlatSize(x: Item)
    ensures |Flat(x)| + HeadBytes(x) == |Enc(x)|
    decreases x, 0
  {
    if x.List? { FlatSizeAll(x.items); }
  }

  lemma {:induction false} FlatSizeAll(xs: seq<Item>)
    ensures |FlatAll(xs)| + HeadBytesAll(xs) == |EncAll(xs)|
    decreases xs, 0
  {
    if xs != [] {
      var front, last := xs[..|xs| - 1], xs[|xs| - 1];
      FlatSizeAll(front);
      FlatSize(last);
      EncAllSnoc(front, last);
      assert xs == front + [last];
    }
  }

  // ---------------------------------------------------------------------------
  // Splicing
  // ---------------------------------------------------------------------------

  /** The next header, if any, lies at or after `pos`. */
  ghost predicate Ahead(str: seq<byte>, hs: seq<ListHead>, pos: nat)
  {
    pos <= |str| && (hs != [] ==> pos <= hs[0].offset <= |str|)
  }

  ghost function Slice(s: seq<byte>, i: nat, j: nat): (r: seq<byte>)
  {
    if i <= j <= |s| then s[i..j] else []
  }

  /** The output from string position `pos` on, with the headers hs still to come. */
  ghost function Splice(str: seq<byte>, hs: seq<ListHead>, pos: nat): (out: seq<byte>)
    decreases |hs|
  {
    if hs == [] then Slice(str, pos, |str|)
    else Slice(str, pos, hs[0].offset) + (ListHeader(hs[0].size) + Splice(str, hs[1..], hs[0].offset))
  }

  lemma Assoc(a: seq<byte>, b: seq<byte>, c: seq<byte>)
    ensures a + b + c == a + (b + c)
  {}

  /** Copying ahead to any point before the next header is a step of the splice. */
  lemma SpliceAdvance(str: seq<byte>, hs: seq<ListHead>, pos: nat, next: nat)
    requires pos <= next && Ahead(str, hs, next)
    ensures Splice(str, hs, pos) == str[pos..next] + Splice(str, hs, next)
  {
    if hs == [] {
      assert str[pos..] == str[pos..next] + str[next..];
    } else {
      var off := hs[0].offset;
      assert str[pos..off] == str[pos..next] + str[next..off];
      Assoc(str[pos..next], str[next..off], ListHeader(hs[0].size) + Splice(str, hs[1..], off));
    }
  }

  /** A header at `pos` is emitted first. */
  lemma SpliceHead(str: seq<byte>, size: nat, hs: seq<ListHead>, pos: nat)
    requires Ahead(str, hs, pos)
    ensures Splice(str, [ListHead(pos, size)] + hs, pos) == ListHeader(size) + Splice(str, hs, pos)
  {
    assert ([ListHead(pos, size)] + hs)[1..] == hs;
    assert Slice(str, pos, pos) == [];
  }

  ghost predicate At(str: seq<byte>, pos: nat, s: seq<byte>)
  {
    pos + |s| <= |str| && str[pos..pos + |s|] == s
  }

  lemma AtConcat(str: seq<byte>, pos: nat, a: seq<byte>, b: seq<byte>)
    requires At(str, pos, a + b)
    ensures At(str, pos, a) && At(str, pos + |a|, b)
  {
    assert str[pos..pos + |a|] == str[pos..pos + |a + b|][..|a|];
    assert str[pos + |a|..pos + |a| + |b|] == str[pos..pos + |a + b|][|a|..];
  }

  /**
    The deferred headers of x, spliced back into its flat data, give its encoding: every size
    computed by subtraction is the length of the payload with its nested headers.
   */
  lemma {:induction false} SpliceItem(x: Item, str: seq<byte>, pos: nat, hs: seq<ListHead>)
    requires At(str, pos, Flat(x)) && Ahead(str, hs, pos + |Flat(x)|)
    ensures Ahead(str, Heads(x, pos) + hs, pos)
    ensures Splice(str, Heads(x, pos) + hs, pos) == Enc(x) + Splice(str, hs, pos + |Flat(x)|)
    decreases x, 0
  {
    hide Splice, Enc, EncAll, Flat, FlatAll, Heads, HeadsAll, ListHeader, Ahead, At;
    match x
    case Str(_) =>
      SpliceString(x, str, pos, hs);
    case List(items) =>
      ListParts(items, pos);
      SpliceAll(items, str, pos, hs);
      SpliceList(items, str, pos, hs);
  }

  lemma SpliceString(x: Item, str: seq<byte>, pos: nat, hs: seq<ListHead>)
    requires x.Str? && At(str, pos, Flat(x)) && Ahead(str, hs, pos + |Flat(x)|)
    ensures Ahead(str, Heads(x, pos) + hs, pos)
    ensures Splice(str, Heads(x, pos) + hs, pos) == Enc(x) + Splice(str, hs, pos + |Flat(x)|)
  {
    hide Splice, Enc;
    SpliceAdvance(str, hs, pos, pos + |Flat(x)|);
    assert Heads(x, pos) + hs == hs;
  }

  lemma SpliceList(items: seq<Item>, str: seq<byte>, pos: nat, hs: seq<ListHead>)
    requires Ahead(str, HeadsAll(items, pos) + hs, pos)
    requires Splice(str, HeadsAll(items, pos) + hs, pos) == EncAll(items) + Splice(str, hs, pos + |FlatAll(items)|)
    ensures Ahead(str, Heads(List(items), pos) + hs, pos)
    ensures Splice(str, Heads(List(items), pos) + hs, pos) == Enc(List(items)) + Splice(str, hs, pos + |FlatAll(items)|)
  {
    hide Splice, EncAll, FlatAll, HeadsAll, ListHeader;
    var h, rest := ListHead(pos, |EncAll(items)|), HeadsAll(items, pos) + hs;
    assert Heads(List(items), pos) + hs == [h] + rest;
    SpliceHead(str, |EncAll(items)|, rest, pos);
    Assoc(ListHeader(|EncAll(items)|), EncAll(items), Splice(str, hs, pos + |FlatAll(items)|));
  }

  lemma {:induction false} SpliceAll(xs: seq<Item>, str: seq<byte>, pos: nat, hs: seq<ListHead>)
    requires At(str, pos, FlatAll(xs)) && Ahead(str, hs, pos + |FlatAll(xs)|)
    ensures Ahead(str, HeadsAll(xs, pos) + hs, pos)
    ensures Splice(str, HeadsAll(xs, pos) + hs, pos) == EncAll(xs) + Splice(str, hs, pos + |FlatAll(xs)|)
    decreases xs, 0
  {
    hide *;
    if xs == [] {
      UnfoldNil(pos);
      assert [] + hs == hs && [] + Splice(str, hs, pos) == Splice(str, hs, pos);
    } else {
      var front, last := xs[..|xs| - 1], xs[|xs| - 1];
      var mid := pos + |FlatAll(front)|;
      UnfoldLast(xs, pos);
      AtConcat(str, pos, FlatAll(front), Flat(last));
      SpliceItem(last, str, mid, hs);
      SpliceAll(front, str, pos, Heads(last, mid) + hs);
      SpliceCompose(str, HeadsAll(front, pos), Heads(last, mid), HeadsAll(xs, pos), hs,
                    pos, mid, pos + |FlatAll(xs)|, EncAll(front), Enc(last), EncAll(xs));
    }
  }

  lemma UnfoldNil(pos: nat)
    ensures FlatAll([]) == [] && HeadsAll([], pos) == [] && EncAll([]) == []
  {}

  lemma UnfoldLast(xs: seq<Item>, pos: nat)
    requires xs != []
    ensures var front, last := xs[..|xs| - 1], xs[|xs| - 1];
            && FlatAll(xs) == FlatAll(front) + Flat(last)
            && HeadsAll(xs, pos) == HeadsAll(front, pos) + Heads(last, pos + |FlatAll(front)|)
            && EncAll(xs) == EncAll(front) + Enc(last)
  {
    EncAllLast(xs);
  }

  lemma SpliceCompose(str: seq<byte>, h0: seq<ListHead>, h1: seq<ListHead>, h: seq<ListHead>, hs: seq<ListHead>,
                      pos: nat, mid: nat, next: nat, e0: seq<byte>, e1: seq<byte>, e: seq<byte>)
    requires h == h0 + h1 && e == e0 + e1
    requires Splice(str, h1 + hs, mid) == e1 + Splice(str, hs, next)
    requires Splice(str, h0 + (h1 + hs), pos) == e0 + Splice(str, h1 + hs, mid)
    ensures h + hs == h0 + (h1 + hs)
    ensures Splice(str, h + hs, pos) == e + Splice(str, hs, next)
  {
    hide *;
    assert h + hs == h0 + (h1 + hs);
    Assoc(e0, e1, Splice(str, hs, next));
  }

  lemma EncAllLast(xs: seq<Item>)
    requires xs != []
    ensures EncAll(xs) == EncAll(xs[..|xs| - 1]) + Enc(xs[|xs| - 1])
  {
    hide *;
    assert xs == xs[..|xs| - 1] + [xs[|xs| - 1]];
    EncAllSnoc(xs[..|xs| - 1], xs[|xs| - 1]);
  }

  /** Headers lie inside the string data, in order, from `pos` on, and their sizes are uint64 values. */
  ghost predicate GoodHeads(str: seq<byte>, hs: seq<ListHead>, pos: nat)
    decreases |hs|
  {
    && Ahead(str, hs, pos)
    && (hs != [] ==> hs[0].size < U64 && GoodHeads(str, hs[1..], hs[0].offset))
  }

  lemma {:induction false} HeadsGood(x: Item, str: seq<byte>, pos: nat, hs: seq<ListHead>)
    requires Fits(x) && GoodHeads(str, hs, pos + |Flat(x)|)
    ensures GoodHeads(str, Heads(x, pos) + hs, pos)
    decreases x, 0
  {
    if x.Str? {
      assert Heads(x, pos) + hs == hs;
    } else {
      HeadsAllGood(x.items, str, pos, hs);
      assert (Heads(x, pos) + hs)[1..] == HeadsAll(x.items, pos) + hs;
    }
  }

  lemma {:induction false} HeadsAllGood(xs: seq<Item>, str: seq<byte>, pos: nat, hs: seq<ListHead>)
    requires |EncAll(xs)| < U64 && GoodHeads(str, hs, pos + |FlatAll(xs)|)
    ensures GoodHeads(str, HeadsAll(xs, pos) + hs, pos)
    decreases xs, 0
  {
    hide HeadsAll, Heads, FlatAll, Flat, Enc, EncAll, GoodHeads;
    if xs == [] {
      UnfoldNil(pos);
      assert [] + hs == hs;
    } else {
      var front, last := xs[..|xs| - 1], xs[|xs| - 1];
      var mid := pos + |FlatAll(front)|;
      UnfoldLast(xs, pos);
      HeadsGood(last, str, mid, hs);
      HeadsAllGood(front, str, pos, Heads(last, mid) + hs);
      assert HeadsAll(xs, pos) + hs == HeadsAll(front, pos) + (Heads(last, mid) + hs);
    }
  }

  /** The whole buffer after one value. */
  lemma SpliceWhole(x: Item)
    requires Fits(x)
    ensures GoodHeads(Flat(x), Heads(x, 0), 0)
    ensures Splice(Flat(x), Heads(x, 0), 0) == Enc(x)
  {
    HeadsGood(x, Flat(x), 0, []);
    SpliceItem(x, Flat(x), 0, []);
    assert Heads(x, 0) + [] == Heads(x, 0);
  }

  // ---------------------------------------------------------------------------
  // encbuf
  // ---------------------------------------------------------------------------

  class EncBuf {
    var str: seq<byte>          // string data, everything except list headers
    var lheads: seq<ListHead>   // all list headers
    var lhsize: nat             // sum of the sizes of the encoded list headers
    const sizebuf: array<byte>  // auxiliary buffer for headers

    ghost predicate Valid()
    {
      sizebuf.Length == 9
    }

    constructor ()
      ensures Valid() && fresh(sizebuf)
      ensures str == [] && lheads == [] && lhsize == 0
    {
      str, lheads, lhsize := [], [], 0;
      sizebuf := new byte[9];
    }

    method Reset()
      modifies this
      ensures str == [] && lheads == [] && lhsize == 0
    {
      lhsize := 0;
      str := [];
      lheads := [];
    }

    method EncodeStringHeader(size: nat)
      requires Valid() && size < U64
      modifies this`str, sizebuf
      ensures str == old(str) + StringHeader(size)
    {
      if size < 56 {
        str := str + [0x80 + size];
      } else {
        PutIntSizeIsLength(size);
        BeUint64(size);
        var k := PutInt(sizebuf, 1, size);
        sizebuf[0] := (0xB7 + k) % 256;
        assert sizebuf[..k + 1] == [(0xB7 + k) % 256] + sizebuf[1..1 + k];
        str := str + sizebuf[..k + 1];
      }
    }

    method EncodeString(b: seq<byte>)
      requires Valid() && |b| < U64
      modifies this`str, sizebuf
      ensures str == old(str) + Enc(Str(b))
    {
      if |b| == 1 && b[0] <= 0x7F {
        str := str + [b[0]];
      } else {
        EncodeStringHeader(|b|);
        str := str + b;
        Assoc(old(str), StringHeader(|b|), b);
      }
    }

    method List() returns (lh: nat)
      modifies this`lheads
      ensures lh == |old(lheads)| && lheads == old(lheads) + [ListHead(|str|, lhsize)]
    {
      lh := |lheads|;
      lheads := lheads + [ListHead(|str|, lhsize)];
    }

    /** Closes the list opened at lh: its payload is everything written since, headers included. */
    method ListEnd(lh: nat)
      requires lh < |lheads| && lheads[lh].offset + lheads[lh].size <= |str| + lhsize
      modifies this`lheads, this`lhsize
      ensures var payload := |str| + old(lhsize) - old(lheads)[lh].offset - old(lheads)[lh].size;
              && lheads == old(lheads)[lh := ListHead(old(lheads)[lh].offset, payload)]
              && lhsize == old(lhsize) + |ListHeader(payload)|
    {
      var size := Size() - lheads[lh].offset - lheads[lh].size;
      lheads := lheads[lh := ListHead(lheads[lh].offset, size)];
      if size < 56 {
        lhsize := lhsize + 1;
      } else {
        var k := IntSize(size);
        lhsize := lhsize + 1 + k;
      }
    }

    function Size(): (n: nat)
      reads this
    {
      |str| + lhsize
    }

    method WriteUint(i: nat)
      requires Valid() && i < U64
      modifies this`str, sizebuf
      ensures str == old(str) + Enc(Str(BigEndian(i)))
    {
      if i == 0 {
        str := str + [0x80];
      } else if i < 128 {
        assert BigEndian(i) == [i];
        str := str + [i];
      } else {
        PutIntSizeIsLength(i);
        BeUint64(i);
        var k := PutInt(sizebuf, 1, i);
        sizebuf[0] := 0x80 + k;
        assert sizebuf[..k + 1] == [0x80 + k] + sizebuf[1..1 + k];
        str := str + sizebuf[..k + 1];
        WideUintItem(i);
      }
    }

    method WriteBigInt(i: int) returns (err: Option<Error>)
      requires Valid() && |BigEndian(Abs(i))| < U64
      modifies this`str, sizebuf
      ensures i < 0 ==> err == Some(NegativeBigInt) && str == old(str)
      ensures i >= 0 ==> err == None && str == old(str) + Enc(Str(BigEndian(i)))
    {
      err := None;
      if i < 0 {
        err := Some(NegativeBigInt);
      } else if i == 0 {
        str := str + [0x80];
      } else {
        EncodeString(BigEndian(i));
      }
    }

    /** Only ever appends. */
    twostate predicate Extends()
      reads this
    {
      old(lheads) <= lheads && |old(str)| <= |str| && old(lhsize) <= lhsize
    }

    /** The buffer grew by the flat data and the side headers of the items xs. */
    twostate predicate Wrote(xs: seq<Item>)
      reads this
    {
      && str == old(str) + FlatAll(xs)
      && lheads == old(lheads) + HeadsAll(xs, |old(str)|)
      && lhsize == old(lhsize) + HeadBytesAll(xs)
    }

    method WriteValue(v: Value) returns (err: Option<Error>)
      requires Valid() && GoValue(v) && Fits(ToItem(v))
      modifies this, sizebuf
      ensures Extends()
      ensures err == if Writable(v) then None else Some(NegativeBigInt)
      ensures err == None ==> Wrote([ToItem(v)])
      decreases v, 0
    {
      err := None;
      WroteOne(ToItem(v), |str|);
      match v
      case UintV(n) => WriteUint(n);
      case BigV(i) => err := WriteBigInt(i);
      case BytesV(s) => EncodeString(s);
      case ListV(vs) => err := WriteList(vs, true);
      case StructV(vs) => err := WriteList(vs, false);
    }

    /** makeSliceWriter (whose listEnd is deferred, so it runs after an error too) and makeStructWriter. */
    method WriteList(vs: seq<Value>, deferred: bool) returns (err: Option<Error>)
      requires Valid() && (forall w | w in vs :: GoValue(w)) && |EncAll(ToItems(vs))| < U64
      modifies this, sizebuf
      ensures Extends()
      ensures err == if forall w | w in vs :: Writable(w) then None else Some(NegativeBigInt)
      ensures err == None ==> Wrote([RlpSpec.List(ToItems(vs))])
      decreases vs, 1
    {
      hide FlatAll, Flat, HeadsAll, Heads, HeadBytesAll, HeadBytes, Enc, EncAll, ToItem, ToItems, GoValue, Writable, ListHeader;
      ghost var xs, pos := ToItems(vs), |str|;
      ListParts(xs, pos);
      var lh := List();
      err := WriteElems(vs);
      if err == None || deferred {
        ListEnd(lh);
      }
      FlatSizeAll(xs);
      WroteOne(RlpSpec.List(xs), pos);
      if err == None {
        ReplaceAt(old(lheads), ListHead(pos, old(lhsize)), HeadsAll(xs, pos), ListHead(pos, |EncAll(xs)|));
      }
    }

    method WriteElems(vs: seq<Value>) returns (err: Option<Error>)
      requires Valid() && (forall w | w in vs :: GoValue(w)) && |EncAll(ToItems(vs))| < U64
      modifies this, sizebuf
      ensures Extends()
      ensures err == if forall w | w in vs :: Writable(w) then None else Some(NegativeBigInt)
      ensures err == None ==> Wrote(ToItems(vs))
      decreases vs, 0
    {
      hide FlatAll, Flat, HeadsAll, Heads, HeadBytesAll, HeadBytes, Enc, EncAll, ToItem, ToItems, GoValue, Writable;
      err := None;
      ghost var xs := ToItems(vs);
      WroteNone(|str|);
      assert xs[..0] == [];
      for i := 0 to |vs|
        invariant Extends() && err == None && Wrote(xs[..i])
        invariant forall w | w in vs[..i] :: Writable(w)
      {
        assert vs[i] in vs && vs[..i + 1] == vs[..i] + [vs[i]];
        EncAllElem(xs, i);
        label before:
        err := WriteValue(vs[i]);
        if err != None {
          return;
        }
        WroteOne(xs[i], |old@before(str)|);
        WroteNext(xs, i, |old(str)|);
      }
      assert vs[..|vs|] == vs && xs[..|vs|] == xs;
    }

    /** toBytes: string data up to each header, the header, and the data after the last one. */
    method ToBytes() returns (out: array<byte>)
      requires GoodHeads(str, lheads, 0) && Size() == |Splice(str, lheads, 0)|
      ensures fresh(out) && out[..] == Splice(str, lheads, 0)
    {
      hide Splice, GoodHeads, Header, ListHeader;
      out := new byte[Size()];
      var strpos: nat, pos: nat := 0, 0;
      ghost var all := Splice(str, lheads, 0);
      assert lheads[0..] == lheads && out[..0] + all == all;
      for k := 0 to |lheads|
        invariant GoodHeads(str, lheads[k..], strpos) && pos <= out.Length
        invariant out[..pos] + Splice(str, lheads[k..], strpos) == all
      {
        var head := lheads[k];
        SpliceNext(str, lheads[k..], strpos);
        ghost var done, chunk, h := out[..pos], str[strpos..head.offset], ListHeader(head.size);
        ghost var rest := Splice(str, lheads[k + 1..], head.offset);
        assert lheads[k..][1..] == lheads[k + 1..];
        Assoc4(done, chunk, h, rest);
        pos := Emit(out, pos, str[strpos..head.offset], head.size);
        strpos := head.offset;
      }
      SpliceNext(str, lheads[|lheads|..], strpos);
      pos := Copy(out, pos, str[strpos..]);
    }

    /** toWriter: the same pieces, one Write each; a failing Write ends it. */
    method ToWriter(out: Sink) returns (ok: bool)
      requires Valid() && GoodHeads(str, lheads, 0) && out.Logged()
      modifies out, sizebuf
      ensures out.Logged()
      ensures ok <==> |Splice(str, lheads, 0)| <= old(out.room)
      ensures out.Took(Splice(str, lheads, 0))
    {
      hide Splice, GoodHeads, Header, ListHeader, Concat;
      ghost var all, data0, room0 := Splice(str, lheads, 0), out.data, out.room;
      var strpos: nat := 0;
      ghost var done: seq<byte> := [];
      assert lheads[0..] == lheads && [] + all == all;
      for k := 0 to |lheads|
        invariant GoodHeads(str, lheads[k..], strpos)
        invariant done + Splice(str, lheads[k..], strpos) == all
        invariant out.data == data0 + done && out.room == room0 - |done| && out.Logged()
      {
        var head := lheads[k];
        SpliceNext(str, lheads[k..], strpos);
        ghost var chunk, h := str[strpos..head.offset], ListHeader(head.size);
        ghost var rest := Splice(str, lheads[k + 1..], head.offset);
        assert lheads[k..][1..] == lheads[k + 1..];
        Assoc(chunk, h, rest);
        ok := WritePiece(out, str[strpos..head.offset], head.size);
        WriteStep(data0, room0, done, chunk + h, rest);
        if !ok { return; }
        strpos, done := head.offset, done + (chunk + h);
      }
      ok := true;
      SpliceNext(str, lheads[|lheads|..], strpos);
      if strpos < |str| {
        ok := out.Write(str[strpos..]);
        WriteStep(data0, room0, done, str[strpos..], []);
        assert str[strpos..] + [] == str[strpos..];
      } else {
        assert done + str[strpos..] == done;
      }
    }

    /** String data before a header, if any, and the header. */
    method WritePiece(out: Sink, chunk: seq<byte>, size: nat) returns (ok: bool)
      requires Valid() && size < U64 && out.Logged()
      modifies out, sizebuf
      ensures out.Logged()
      ensures ok <==> |chunk + ListHeader(size)| <= old(out.room)
      ensures out.Took(chunk + ListHeader(size))
    {
      hide ListHeader, Header, Concat;
      ghost var data0, room0, h := out.data, out.room, ListHeader(size);
      ok := true;
      assert [] + chunk == chunk && data0 + [] == data0;
      if |chunk| > 0 {
        ok := out.Write(chunk);
        WriteStep(data0, room0, [], chunk, h);
        if !ok { return; }
      }
      HeaderFits(size);
      var n := PutHeadAt(sizebuf, 0, size);
      assert sizebuf[..n] == sizebuf[0..0 + n];
      ok := out.Write(sizebuf[..n]);
      WriteStep(data0, room0, chunk, h, []);
      assert h + [] == h;
    }
  }

  /** listhead.encode */
  method PutHeadAt(buf: array<byte>, at: nat, size: nat) returns (n: nat)
    requires size < U64 && at + |ListHeader(size)| <= buf.Length
    modifies buf
    ensures n == |ListHeader(size)| && buf[at..at + n] == ListHeader(size)
    ensures forall j | 0 <= j < buf.Length && !(at <= j < at + n) :: buf[j] == old(buf[j])
  {
    n := PutHead(buf, at, 0xC0, 0xF7, size);
  }

  /** One round of ToBytes: string data before a header, then the header. */
  method Emit(out: array<byte>, pos: nat, chunk: seq<byte>, size: nat) returns (end: nat)
    requires size < U64 && pos + |chunk| + |ListHeader(size)| <= out.Length
    modifies out
    ensures end == pos + |chunk| + |ListHeader(size)|
    ensures out[..end] == old(out[..pos]) + (chunk + ListHeader(size))
  {
    hide ListHeader, Header;
    var mid := Copy(out, pos, chunk);
    ghost var done := out[..mid];
    var n := PutHeadAt(out, mid, size);
    end := mid + n;
    assert out[..mid] == done;
    assert out[..end] == done + out[mid..mid + n];
  }

  lemma Assoc4(a: seq<byte>, b: seq<byte>, c: seq<byte>, d: seq<byte>)
    ensures a + (b + (c + d)) == a + (b + c) + d
  {}

  /** A write after `done` either appends p whole or stops exactly where the room ends. */
  lemma WriteStep(data: seq<byte>, room: nat, done: seq<byte>, p: seq<byte>, rest: seq<byte>)
    requires |done| <= room
    ensures |done| + |p| <= room ==>
              data + done + p[..Min(|p|, room - |done|)] == data + (done + p)
    ensures |done| + |p| <= room ==> done + (p + rest) == done + p + rest
    ensures |done| + |p| > room ==>
              && |done + (p + rest)| > room
              && data + done + p[..Min(|p|, room - |done|)] == data + (done + (p + rest))[..room]
  {
    assert (done + (p + rest))[..|done|] == done;
  }

  /** An io.Writer that accepts `room` more bytes and then fails with a short write. */
  class Sink {
    var data: seq<byte>
    var room: nat
    var writes: seq<seq<byte>>    // what each Write accepted

    constructor (room: nat)
      ensures data == [] && this.room == room && Logged()
    {
      this.data, this.room, writes := [], room, [];
    }

    ghost predicate Logged()
      reads this
    {
      Concat(writes) == data
    }

    /** s, or as much of it as there was room for, was appended. */
    twostate predicate Took(s: seq<byte>)
      reads this
    {
      && data == old(data) + s[..Min(|s|, old(room))]
      && room == old(room) - Min(|s|, old(room))
    }

    method Write(p: seq<byte>) returns (ok: bool)
      requires Logged()
      modifies this
      ensures Logged() && writes == old(writes) + [p[..Min(|p|, old(room))]]
      ensures ok <==> |p| <= old(room)
      ensures Took(p)
    {
      var n := Min(|p|, room);
      ConcatSnoc(writes, p[..n]);
      writes := writes + [p[..n]];
      data := data + p[..n];
      room := room - n;
      ok := n == |p|;
    }
  }

  lemma HeaderFits(n: nat)
    requires n < U64
    ensures |ListHeader(n)| <= 9
  {
    BeUint64(n);
  }

  /** What the splice emits next. */
  lemma SpliceNext(str: seq<byte>, hs: seq<ListHead>, pos: nat)
    requires GoodHeads(str, hs, pos)
    ensures pos <= |str|
    ensures hs == [] ==> Splice(str, hs, pos) == str[pos..]
    ensures hs != [] ==>
              && pos <= hs[0].offset <= |str| && hs[0].size < U64 && GoodHeads(str, hs[1..], hs[0].offset)
              && Splice(str, hs, pos)
                 == str[pos..hs[0].offset] + (ListHeader(hs[0].size) + Splice(str, hs[1..], hs[0].offset))
  {}

  /** Go's copy into out[pos:], for a source that fits. */
  method Copy(out: array<byte>, pos: nat, s: seq<byte>) returns (end: nat)
    requires pos + |s| <= out.Length
    modifies out
    ensures end == pos + |s| && out[..end] == old(out[..pos]) + s
    ensures forall i | end <= i < out.Length :: out[i] == old(out[i])
  {
    end := pos + |s|;
    forall i | 0 <= i < |s| {
      out[pos + i] := s[i];
    }
  }

  lemma WroteOne(x: Item, pos: nat)
    ensures FlatAll([x]) == Flat(x) && HeadsAll([x], pos) == Heads(x, pos) && HeadBytesAll([x]) == HeadBytes(x)
  {
    hide Flat, Heads, HeadBytes, EncAll, Enc;
    assert [x][..0] == [];
    assert [] + Flat(x) == Flat(x) && [] + Heads(x, pos) == Heads(x, pos);
  }

  lemma ListParts(xs: seq<Item>, pos: nat)
    ensures Flat(List(xs)) == FlatAll(xs) && Heads(List(xs), pos) == [ListHead(pos, |EncAll(xs)|)] + HeadsAll(xs, pos)
    ensures HeadBytes(List(xs)) == |ListHeader(|EncAll(xs)|)| + HeadBytesAll(xs)
  {}

  lemma WroteNone(pos: nat)
    ensures FlatAll([]) == [] && HeadsAll([], pos) == [] && HeadBytesAll([]) == 0
  {}

  lemma WroteNext(xs: seq<Item>, i: nat, pos: nat)
    requires i < |xs|
    ensures FlatAll(xs[..i + 1]) == FlatAll(xs[..i]) + Flat(xs[i])
    ensures HeadsAll(xs[..i + 1], pos) == HeadsAll(xs[..i], pos) + Heads(xs[i], pos + |FlatAll(xs[..i])|)
    ensures HeadBytesAll(xs[..i + 1]) == HeadBytesAll(xs[..i]) + HeadBytes(xs[i])
  {
    hide Flat, Heads, HeadBytes, EncAll, Enc;
    assert xs[..i + 1][..i] == xs[..i];
  }

  lemma {:induction false} EncAllElem(xs: seq<Item>, i: nat)
    requires i < |xs|
    ensures |Enc(xs[i])| <= |EncAll(xs)|
    decreases i
  {
    EncAllCons(xs);
    if i > 0 { EncAllElem(xs[1..], i - 1); }
  }

  lemma ReplaceAt<T>(a: seq<T>, t: T, b: seq<T>, u: T)
    ensures (a + [t] + b)[|a| := u] == a + ([u] + b)
  {}

  lemma WideUintItem(i: nat)
    requires 128 <= i < U64
    ensures Enc(Str(BigEndian(i))) == [0x80 + |BigEndian(i)|] + BigEndian(i)
  {
    BeUint64(i);
    if |BigEndian(i)| == 1 {
      assert BigEndian(i) == [i];
    }
  }
}
