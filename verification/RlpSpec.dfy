/**
  Recursive Length Prefix, Appendix B of the Ethereum Yellow Paper: the items, their one
  canonical encoding, and the facts about it (canonical integers, unique headers,
  prefix-freeness) that the encoder, the stream decoder and the slice splitter rest on.
 */
module RlpSpec {
  import opened Basics

  type byte = b: int | 0 <= b < 256

  /** One more than the largest uint64. */
  const U64: int := 0x1_0000_0000_0000_0000

  /** The errors of package rlp, plus the two end-of-input errors of package io. */
  datatype Error =
    | EOL
    | IoEOF
    | UnexpectedEOF
    | ExpectedString
    | ExpectedList
    | CanonInt
    | CanonSize
    | ElemTooLarge
    | ValueTooLarge
    | MoreThanOneValue
    | NotInList
    | NotAtEOL
    | UintOverflow
    | TooFewElements
    | StringTooLong
    | StringTooShort
    | NegativeBigInt

  type Result<+T> = Outcome<T, Error>

  // ---------------------------------------------------------------------------
  // Big-endian integers
  // ---------------------------------------------------------------------------

  /** The shortest big-endian representation; empty for zero. */
  function BigEndian(n: nat): (s: seq<byte>)
  {
    if n == 0 then [] else BigEndian(n / 256) + [n % 256]
  }

  function BeValue(s: seq<byte>): (n: nat)
  {
    if s == [] then 0 else BeValue(s[..|s| - 1]) * 256 + s[|s| - 1]
  }

  function Pow256(k: nat): (p: nat)
    ensures p >= 1
  {
    if k == 0 then 1 else 256 * Pow256(k - 1)
  }

  lemma {:induction false} BeRoundTrip(n: nat)
    ensures BeValue(BigEndian(n)) == n
    ensures n > 0 ==> |BigEndian(n)| > 0 && BigEndian(n)[0] != 0
  {
    if n != 0 {
      BeRoundTrip(n / 256);
      assert BigEndian(n)[..|BigEndian(n)| - 1] == BigEndian(n / 256);
    }
  }

  /** A string without a leading zero is the shortest representation of its value. */
  lemma {:induction false} BeCanonical(s: seq<byte>)
    requires s != [] ==> s[0] != 0
    ensures BigEndian(BeValue(s)) == s
    ensures s != [] ==> BeValue(s) > 0
  {
    if s != [] {
      var t := s[..|s| - 1];
      BeCanonical(t);
      assert s == t + [s[|s| - 1]];
      assert BeValue(s) / 256 == BeValue(t) && BeValue(s) % 256 == s[|s| - 1];
    }
  }

  lemma {:induction false} BeBound(s: seq<byte>)
    ensures BeValue(s) < Pow256(|s|)
  {
    if s != [] {
      BeBound(s[..|s| - 1]);
    }
  }

  /** Exactly the numbers below 256^k fit k bytes. */
  lemma {:induction false} BeLength(n: nat, k: nat)
    ensures |BigEndian(n)| <= k <==> n < Pow256(k)
  {
    if n != 0 && k != 0 {
      BeLength(n / 256, k - 1);
    }
  }

  lemma U64IsPow()
    ensures Pow256(8) == U64
  {
    assert Pow256(4) == 0x1_0000_0000;
  }

  /** Leading zero bytes do not change the value. */
  lemma {:induction false} BeLeadingZeros(k: nat, s: seq<byte>)
    ensures BeValue(seq(k, _ => 0) + s) == BeValue(s)
  {
    var z: seq<byte> := seq(k, _ => 0);
    if s != [] {
      BeLeadingZeros(k, s[..|s| - 1]);
      assert (z + s)[..|z + s| - 1] == z + s[..|s| - 1];
    } else if k != 0 {
      BeLeadingZeros(k - 1, []);
      assert (z + s)[..k - 1] == seq(k - 1, _ => 0) + [];
    }
  }

  // ---------------------------------------------------------------------------
  // Items and their encoding
  // ---------------------------------------------------------------------------

  datatype Item = Str(s: seq<byte>) | List(items: seq<Item>)

  datatype Kind = Byte | String | ListKind

  /** Tag byte arithmetic wraps, as Go's byte arithmetic does. */
  function Header(small: byte, large: byte, n: nat): (h: seq<byte>)
    ensures |h| >= 1
  {
    if n < 56 then [(small + n) % 256]
    else var be := BigEndian(n); [(large + |be|) % 256] + be
  }

  function StringHeader(n: nat): (h: seq<byte>) { Header(0x80, 0xB7, n) }

  function ListHeader(n: nat): (h: seq<byte>) { Header(0xC0, 0xF7, n) }

  predicate IsByte(s: seq<byte>) { |s| == 1 && s[0] < 0x80 }

  function Enc(x: Item): (e: seq<byte>)
    decreases x, 0
  {
    match x
    case Str(s) => if IsByte(s) then s else StringHeader(|s|) + s
    case List(items) => ListHeader(|EncAll(items)|) + EncAll(items)
  }

  function EncAll(xs: seq<Item>): (e: seq<byte>)
    decreases xs, 0
  {
    if xs == [] then [] else Enc(xs[0]) + EncAll(xs[1..])
  }

  lemma HeaderIs(small: byte, large: byte, n: nat)
    requires n < U64 && small + 56 <= 256 && large + 8 < 256
    ensures n < 56 ==> Header(small, large, n) == [small + n]
    ensures 56 <= n ==> |BigEndian(n)| <= 8 && Header(small, large, n) == [large + |BigEndian(n)|] + BigEndian(n)
  {
    hide BigEndian;
    BeUint64(n);
  }

  /** Appendix B, strings: a byte below 128 is itself, other strings follow their length. */
  lemma EncString(s: seq<byte>)
    requires |s| < U64
    ensures |s| == 1 && s[0] < 128 ==> Enc(Str(s)) == s
    ensures |s| < 56 && !(|s| == 1 && s[0] < 128) ==> Enc(Str(s)) == [128 + |s|] + s
    ensures 56 <= |s| ==> |BigEndian(|s|)| <= 8 && Enc(Str(s)) == [183 + |BigEndian(|s|)|] + BigEndian(|s|) + s
  {
    hide BigEndian, Header;
    HeaderIs(0x80, 0xB7, |s|);
  }

  /** Appendix B, lists: a list is its elements one after the other, behind their joint length. */
  lemma EncList(xs: seq<Item>)
    requires |EncAll(xs)| < U64
    ensures var p := EncAll(xs);
      && (|p| < 56 ==> Enc(List(xs)) == [192 + |p|] + p)
      && (56 <= |p| ==> |BigEndian(|p|)| <= 8 && Enc(List(xs)) == [247 + |BigEndian(|p|)|] + BigEndian(|p|) + p)
  {
    hide BigEndian, Header, EncAll;
    HeaderIs(0xC0, 0xF7, |EncAll(xs)|);
  }

  /** What a length field can express: the encoding is shorter than 2^64. */
  ghost predicate Fits(x: Item) { |Enc(x)| < U64 }

  lemma EncNonEmpty(x: Item)
    ensures |Enc(x)| >= 1
  {}

  lemma {:induction false} EncAllConcat(xs: seq<Item>, ys: seq<Item>)
    ensures EncAll(xs + ys) == EncAll(xs) + EncAll(ys)
    decreases |xs|
  {
    hide Enc;
    if xs == [] {
      assert xs + ys == ys;
    } else {
      EncAllConcat(xs[1..], ys);
      assert (xs + ys)[0] == xs[0] && (xs + ys)[1..] == xs[1..] + ys;
      assert Enc(xs[0]) + (EncAll(xs[1..]) + EncAll(ys)) == Enc(xs[0]) + EncAll(xs[1..]) + EncAll(ys);
    }
  }

  lemma EncAllSnoc(xs: seq<Item>, x: Item)
    ensures EncAll(xs + [x]) == EncAll(xs) + Enc(x)
  {
    EncAllConcat(xs, [x]);
    assert EncAll([x]) == Enc(x) + EncAll([]);
  }

  // ---------------------------------------------------------------------------
  // Headers are prefix-free
  // ---------------------------------------------------------------------------

  /** h is the canonical header of a value of kind k with n payload bytes. A Byte is its own header. */
  ghost predicate IsHead(h: seq<byte>, k: Kind, n: nat)
  {
    match k
    case Byte => IsByte(h) && n == 0
    case String => n < U64 && h == StringHeader(n)
    case ListKind => n < U64 && h == ListHeader(n)
  }

  function TagKind(tag: byte): (k: Kind)
  {
    if tag < 0x80 then Byte else if tag < 0xC0 then String else ListKind
  }

  /** How many length bytes follow the tag byte. */
  function TagExtra(tag: byte): (n: nat)
    ensures n <= 8
  {
    if 0xB8 <= tag < 0xC0 then tag - 0xB7 else if 0xF8 <= tag then tag - 0xF7 else 0
  }

  /** The payload size a header announces. */
  function HeadSize(h: seq<byte>): (n: nat)
    requires h != []
  {
    if h[0] < 0x80 then 0
    else if TagExtra(h[0]) > 0 then BeValue(h[1..])
    else if h[0] < 0xC0 then h[0] - 0x80
    else h[0] - 0xC0
  }

  /** Exactly the uint64 values fit the eight length bytes. */
  lemma BeUint64(n: nat)
    ensures |BigEndian(n)| <= 8 <==> n < U64
  {
    U64IsPow();
    BeLength(n, 8);
  }

  lemma LongHead(large: byte, n: nat)
    requires 56 <= n < U64 && large < 0xF8
    ensures var h := Header(0, large, n);
            && 2 <= |h| <= 9 && h[0] == large + |h| - 1
            && h[1] != 0 && BeValue(h[1..]) == n
  {
    BeRoundTrip(n);
    BeUint64(n);
    assert Header(0, large, n)[1..] == BigEndian(n);
  }

  /** The tag byte of a header determines its kind and length, and the header its size. */
  lemma HeadTag(h: seq<byte>, k: Kind, n: nat)
    requires IsHead(h, k, n)
    ensures 1 <= |h| <= 9
    ensures |h| == 1 + TagExtra(h[0]) && k == TagKind(h[0]) && n == HeadSize(h)
    ensures |h| > 1 ==> n >= 56 && h[1] != 0
  {
    hide BigEndian, BeValue;
    if n >= 56 {
      if k == String { LongHead(0xB7, n); } else { LongHead(0xF7, n); }
    }
  }

  lemma LongHeadInverse(large: byte, be: seq<byte>)
    requires 1 <= |be| <= 8 && be[0] != 0 && BeValue(be) >= 56 && large < 0xF8
    ensures BeValue(be) < U64 && Header(0, large, BeValue(be)) == [large + |be|] + be
  {
    BeCanonical(be);
    HeaderOfBigEndian(large, BeValue(be), be);
  }

  lemma HeaderOfBigEndian(large: byte, n: nat, be: seq<byte>)
    requires BigEndian(n) == be && |be| <= 8 && n >= 56 && large < 0xF8
    ensures n < U64 && Header(0, large, n) == [large + |be|] + be
  {
    BeUint64(n);
  }

  /** Conversely, a tag byte with its canonical length bytes is a header. */
  lemma HeadFromTag(h: seq<byte>)
    requires h != [] && |h| == 1 + TagExtra(h[0])
    requires |h| > 1 ==> h[1] != 0 && HeadSize(h) >= 56
    ensures IsHead(h, TagKind(h[0]), HeadSize(h))
  {
    if |h| > 1 {
      var be := h[1..];
      LongHeadInverse(if h[0] < 0xC0 then 0xB7 else 0xF7, be);
      assert h == [h[0]] + be;
    }
  }

  lemma HeadUnique(w: seq<byte>, h1: seq<byte>, k1: Kind, n1: nat, h2: seq<byte>, k2: Kind, n2: nat)
    requires h1 <= w && h2 <= w
    requires IsHead(h1, k1, n1) && IsHead(h2, k2, n2)
    ensures h1 == h2 && k1 == k2 && n1 == n2
  {
    HeadTag(h1, k1, n1);
    HeadTag(h2, k2, n2);
    HeadSameLength(w, h1, h2);
  }

  lemma HeadSameLength(w: seq<byte>, h1: seq<byte>, h2: seq<byte>)
    requires h1 <= w && h2 <= w && h1 != [] && h2 != []
    requires |h1| == 1 + TagExtra(h1[0]) && |h2| == 1 + TagExtra(h2[0])
    ensures h1 == h2
  {
    assert h1[0] == w[0] == h2[0];
  }

  // ---------------------------------------------------------------------------
  // Encodings are prefix-free, so Enc is injective
  // ---------------------------------------------------------------------------

  function KindOf(x: Item): (k: Kind)
  {
    match x
    case Str(s) => if IsByte(s) then Byte else String
    case List(_) => ListKind
  }

  function Payload(x: Item): (p: seq<byte>)
  {
    match x
    case Str(s) => if IsByte(s) then [] else s
    case List(items) => EncAll(items)
  }

  function Head(x: Item): (h: seq<byte>)
  {
    match x
    case Str(s) => if IsByte(s) then s else StringHeader(|s|)
    case List(items) => ListHeader(|EncAll(items)|)
  }

  lemma EncSplit(x: Item)
    ensures Enc(x) == Head(x) + Payload(x)
    ensures Fits(x) ==> IsHead(Head(x), KindOf(x), |Payload(x)|)
  {}

  lemma {:induction false} EncPrefixFree(w: seq<byte>, x: Item, y: Item)
    requires Fits(x) && Fits(y)
    requires Enc(x) <= w && Enc(y) <= w
    ensures x == y
    decreases x, 0
  {
    EncSplit(x);
    EncSplit(y);
    HeadUnique(w, Head(x), KindOf(x), |Payload(x)|, Head(y), KindOf(y), |Payload(y)|);
    assert Enc(x) == w[..|Enc(x)|] == Enc(y);
    assert Payload(x) == Enc(x)[|Head(x)|..] == Payload(y);
    if x.List? {
      EncAllPrefix(x.items, [], y.items);
    }
  }

  lemma EncAllCons(xs: seq<Item>)
    ensures xs == [] ==> EncAll(xs) == []
    ensures xs != [] ==> EncAll(xs) == Enc(xs[0]) + EncAll(xs[1..]) && |Enc(xs[0])| >= 1
  {}

  /** If the encodings of ys start with those of xs, then xs is a prefix of ys. */
  lemma {:induction false} EncAllPrefix(xs: seq<Item>, r: seq<byte>, ys: seq<Item>)
    requires EncAll(xs) + r == EncAll(ys)
    requires |EncAll(ys)| < U64
    ensures xs <= ys && r == EncAll(ys[|xs|..])
    ensures r == [] ==> xs == ys
    decreases xs, 0
  {
    hide Enc, EncAll;
    EncAllCons(xs);
    EncAllCons(ys);
    if xs == [] {
      assert ys[0..] == ys && [] + r == r;
    } else {
      var w, tail := EncAll(ys), EncAll(xs[1..]) + r;
      assert w == Enc(xs[0]) + tail;
      EncPrefixFree(w, xs[0], ys[0]);
      assert tail == w[|Enc(xs[0])|..] == EncAll(ys[1..]);
      EncAllPrefix(xs[1..], r, ys[1..]);
      assert ys[1..][|xs| - 1..] == ys[|xs|..];
      assert xs == [xs[0]] + xs[1..] && ys == [ys[0]] + ys[1..];
    }
  }

  /** Distinct items never share an encoding. */
  lemma EncInjective(x: Item, y: Item)
    requires Fits(x) && Enc(x) == Enc(y)
    ensures x == y
  {
    EncPrefixFree(Enc(x), x, y);
  }
}
