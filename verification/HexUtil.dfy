/**
  * Hex quantities: the limb-by-limb decoder of big numbers, the digit-by-digit
  * decoder of 64-bit ones, and the value both of them denote.
  */
module HexUtil {
  import opened Basics

  datatype Error = EmptyString | Syntax | MissingPrefix | EmptyNumber | LeadingZero | Uint64Range | Big256Range
  type Result<+T> = Outcome<T, Error>

  // ---------------------------------------------------------------------------
  // The value of a string of digits
  // ---------------------------------------------------------------------------

  /** decodeNibble, with None for the bad nibble. */
  function Nibble(c: char): (d: Option<nat>)
    ensures d.Some? ==> d.value < 16
  {
    if '0' <= c <= '9' then Some((c - '0') as nat)
    else if 'A' <= c <= 'F' then Some((c - 'A') as nat + 10)
    else if 'a' <= c <= 'f' then Some((c - 'a') as nat + 10)
    else None
  }

  /** The sixteen digits, in upper and in lower case. */
  lemma NibbleDigits(d: nat)
    requires d < 16
    ensures Nibble("0123456789ABCDEF"[d]) == Some(d) && Nibble("0123456789abcdef"[d]) == Some(d)
  {}

  /** Nothing else is a digit. */
  lemma NibbleOthers(c: char)
    ensures Nibble(c).Some? <==> c in "0123456789ABCDEF" || c in "0123456789abcdef"
  {
    if Nibble(c).Some? {
      var d := Nibble(c).value;
      if c <= '9' { assert "0123456789ABCDEF"[d] == c; }
      else if c <= 'F' { assert "0123456789ABCDEF"[d] == c; }
      else { assert "0123456789abcdef"[d] == c; }
    }
  }

  predicate AllHex(s: string)
  {
    forall i | 0 <= i < |s| :: Nibble(s[i]).Some?
  }

  function Pow16(n: nat): (p: nat)
    ensures p > 0
  {
    if n == 0 then 1 else 16 * Pow16(n - 1)
  }

  /** The positional value in base 16. */
  function HexValue(s: string): (v: nat)
    requires AllHex(s)
  {
    if s == [] then 0 else HexValue(s[..|s| - 1]) * 16 + Nibble(s[|s| - 1]).value
  }

  /** One digit is worth its own value, and a digit more shifts by 16. */
  lemma DigitsValue(s: string, c: char)
    requires AllHex(s) && Nibble(c).Some?
    ensures AllHex([c]) && HexValue([c]) == Nibble(c).value
    ensures AllHex(s + [c]) && HexValue(s + [c]) == 16 * HexValue(s) + Nibble(c).value
  {
    hide Nibble;
    assert (s + [c])[..|s|] == s && [c][..0] == [];
  }

  /** The value of limbs, least significant first. */
  function LimbValue(ws: seq<nat>, base: nat): (v: nat)
  {
    if ws == [] then 0 else LimbValue(ws[..|ws| - 1], base) + ws[|ws| - 1] * Power(base, |ws| - 1)
  }

  function Power(base: nat, n: nat): (p: nat)
  {
    if n == 0 then 1 else base * Power(base, n - 1)
  }

  lemma {:induction false} PowerOf16(k: nat, n: nat)
    ensures Power(Pow16(k), n) == Pow16(k * n)
  {
    if n > 0 {
      PowerOf16(k, n - 1);
      Pow16Sum(k, k * (n - 1));
      assert k + k * (n - 1) == k * n;
    }
  }

  lemma {:induction false} Pow16Sum(a: nat, b: nat)
    ensures Pow16(a + b) == Pow16(a) * Pow16(b)
  {
    if a > 0 {
      Pow16Sum(a - 1, b);
      Associate(16, Pow16(a - 1), Pow16(b));
    }
  }

  lemma Associate(a: nat, b: nat, c: nat)
    ensures a * (b * c) == (a * b) * c
  {}

  lemma {:induction false} HexBound(s: string)
    requires AllHex(s)
    ensures HexValue(s) < Pow16(|s|)
  {
    if s != [] { HexBound(s[..|s| - 1]); }
  }

  /** Digits in front weigh by the number of digits behind. */
  lemma {:induction false} HexConcat(s: string, t: string)
    requires AllHex(s) && AllHex(t)
    ensures AllHex(s + t)
    ensures HexValue(s + t) == HexValue(s) * Pow16(|t|) + HexValue(t)
  {
    hide HexValue, Pow16, Nibble;
    if t == [] {
      assert s + t == s;
      NoDigits();
      assert Pow16(0) == 1 by { Pow16Zero(); }
    } else {
      var u := t[..|t| - 1];
      HexConcat(s, u);
      assert (s + t)[..|s + t| - 1] == s + u;
      LastDigit(t);
      LastDigit(s + t);
      Pow16Next(|u|);
      Associate(HexValue(s), Pow16(|u|), 16);
    }
  }

  lemma NoDigits()
    ensures AllHex([]) && HexValue([]) == 0
  {}

  lemma Pow16Zero()
    ensures Pow16(0) == 1
  {}

  lemma Pow16Next(n: nat)
    ensures Pow16(n + 1) == Pow16(n) * 16
  {}

  lemma LastDigit(s: string)
    requires AllHex(s) && s != []
    ensures HexValue(s) == HexValue(s[..|s| - 1]) * 16 + Nibble(s[|s| - 1]).value
  {}

  // ---------------------------------------------------------------------------
  // What the decoders should do
  // ---------------------------------------------------------------------------

  predicate Has0xPrefix(s: string)
  {
    |s| >= 2 && s[0] == '0' && (s[1] == 'x' || s[1] == 'X')
  }

  /** checkNumber; checkNumberText differs only in allowing the empty string, as no digits at all. */
  function CheckNumber(input: string, allowEmpty: bool): (r: Result<string>)
    ensures r.Ok? <==>
      if input == [] then allowEmpty
      else |input| > 2 && input[0] == '0' && (input[1] == 'x' || input[1] == 'X') && (input[2] != '0' || |input| == 3)
    ensures r.Ok? ==> r.value == if input == [] then [] else input[2..]
    ensures r.Err? ==> r.error == (if input == [] then EmptyString else if !Has0xPrefix(input) then MissingPrefix
                                   else if |input| == 2 then EmptyNumber else LeadingZero)
  {
    if input == [] then (if allowEmpty then Ok([]) else Err(EmptyString))
    else if !Has0xPrefix(input) then Err(MissingPrefix)
    else if |input| == 2 then Err(EmptyNumber)
    else if |input| > 3 && input[2] == '0' then Err(LeadingZero)
    else Ok(input[2..])
  }

  /** A quantity of at most maxDigits digits, or the error for it. */
  function Quantity(input: string, allowEmpty: bool, maxDigits: nat, tooLong: Error): (r: Result<nat>)
  {
    match CheckNumber(input, allowEmpty)
    case Err(e) => Err(e)
    case Ok(raw) =>
      if |raw| > maxDigits then Err(tooLong)
      else if !AllHex(raw) then Err(Syntax)
      else Ok(HexValue(raw))
  }

  /** A quantity is accepted exactly if it is prefixed digits, not too many, without a leading zero, and stands for their value. */
  lemma QuantityOk(input: string, allowEmpty: bool, maxDigits: nat, tooLong: Error, v: nat)
    ensures Quantity(input, allowEmpty, maxDigits, tooLong) == Ok(v) <==>
      if input == [] then allowEmpty && v == 0
      else
        && 2 < |input| <= maxDigits + 2 && input[0] == '0' && (input[1] == 'x' || input[1] == 'X')
        && (input[2] != '0' || |input| == 3)
        && AllHex(input[2..]) && HexValue(input[2..]) == v
  {
    hide HexValue, AllHex;
    NoDigits();
  }

  // ---------------------------------------------------------------------------
  // The decoders
  // ---------------------------------------------------------------------------

  /** One limb: the digits raw[start..end], multiplied up in a word of the given number of nibbles. */
  method DecodeLimb(raw: string, start: nat, end: nat, nibbles: nat) returns (w: Option<nat>)
    requires start <= end <= |raw| && end - start <= nibbles
    ensures w.Some? <==> AllHex(raw[start..end])
    ensures w.Some? ==> w.value == HexValue(raw[start..end]) < Pow16(nibbles)
  {
    hide HexValue, Pow16, AllHex, Nibble;
    NoDigits();
    assert raw[start..start] == [];
    var word, ri := 0, start;
    while ri < end
      invariant start <= ri <= end
      invariant AllHex(raw[start..ri]) && word == HexValue(raw[start..ri]) < Pow16(nibbles)
    {
      var nib := Nibble(raw[ri]);
      if nib.None? {
        BadDigit(raw, start, ri, end);
        return None;
      }
      LimbStep(raw, start, ri, nibbles);
      // the word does not wrap
      word := Wrap(word * 16, Pow16(nibbles));
      word := Wrap(word + nib.value, Pow16(nibbles));
      ri := ri + 1;
    }
    return Some(word);
  }

  /** Word arithmetic: modulo the word size. */
  function Wrap(v: nat, size: nat): (w: nat)
    requires size > 0
    ensures v < size ==> w == v
  {
    v % size
  }

  lemma BadDigit(raw: string, start: nat, ri: nat, end: nat)
    requires start <= ri < end <= |raw| && Nibble(raw[ri]).None?
    ensures !AllHex(raw[start..end])
  {
    assert raw[start..end][ri - start] == raw[ri];
  }

  lemma LimbStep(raw: string, start: nat, ri: nat, nibbles: nat)
    requires start <= ri < |raw| && ri + 1 - start <= nibbles
    requires AllHex(raw[start..ri]) && Nibble(raw[ri]).Some?
    ensures AllHex(raw[start..ri + 1])
    ensures HexValue(raw[start..ri + 1]) == HexValue(raw[start..ri]) * 16 + Nibble(raw[ri]).value
    ensures HexValue(raw[start..ri]) * 16 <= HexValue(raw[start..ri + 1]) < Pow16(nibbles)
  {
    hide Nibble, Pow16;
    var before, after := raw[start..ri], raw[start..ri + 1];
    assert after == before + [raw[ri]];
    assert after[..|after| - 1] == before;
    HexBound(after);
    Monotone(|after|, nibbles);
  }

  lemma {:induction false} Monotone(a: nat, b: nat)
    requires a <= b
    ensures Pow16(a) <= Pow16(b)
  {
    if a < b { Monotone(a, b - 1); }
  }

  /** Where the digits of the first i limbs start. */
  function LimbStart(n: nat, nibbles: nat, i: nat): (k: nat)
    ensures k <= n
  {
    if i * nibbles <= n then n - i * nibbles else 0
  }

  lemma StartNext(n: nat, nibbles: nat, i: nat)
    ensures var end := LimbStart(n, nibbles, i);
      LimbStart(n, nibbles, i + 1) == if end < nibbles then 0 else end - nibbles
  {
    assert (i + 1) * nibbles == i * nibbles + nibbles;
  }

  lemma LimbNext(raw: string, nibbles: nat, i: nat, ws: seq<nat>, w: nat)
    requires |ws| == i
    requires var end, start := LimbStart(|raw|, nibbles, i), LimbStart(|raw|, nibbles, i + 1);
      && start <= end
      && AllHex(raw[end..]) && AllHex(raw[start..end])
      && LimbValue(ws, Pow16(nibbles)) == HexValue(raw[end..]) && w == HexValue(raw[start..end])
    ensures AllHex(raw[LimbStart(|raw|, nibbles, i + 1)..])
    ensures LimbValue(ws + [w], Pow16(nibbles)) == HexValue(raw[LimbStart(|raw|, nibbles, i + 1)..])
  {
    hide HexValue, AllHex, Pow16;
    var end, start := LimbStart(|raw|, nibbles, i), LimbStart(|raw|, nibbles, i + 1);
    var high, low := raw[start..end], raw[end..];
    assert raw[start..] == high + low;
    HexConcat(high, low);
    PowerOf16(nibbles, i);
    assert (ws + [w])[..i] == ws;
    if end == 0 {
      assert high == [];
      NoDigits();
    } else {
      assert |low| == nibbles * i;
    }
  }

  /** The loop of DecodeBig: limbs from the low end of the digits, none of them overflowing. */
  method DecodeLimbs(raw: string, nibbles: nat) returns (r: Option<seq<nat>>)
    requires nibbles > 0
    ensures r.Some? <==> AllHex(raw)
    ensures r.Some? ==> LimbValue(r.value, Pow16(nibbles)) == HexValue(raw)
    ensures r.Some? ==> forall i | 0 <= i < |r.value| :: r.value[i] < Pow16(nibbles)
  {
    hide HexValue, AllHex, Pow16, LimbValue, LimbStart;
    var words := new nat[|raw| / nibbles + 1](_ => 0);
    var end := |raw|;
    NoLimbs(raw, nibbles);
    for i := 0 to words.Length
      invariant end == LimbStart(|raw|, nibbles, i)
      invariant AllHex(raw[end..]) && LimbValue(words[..i], Pow16(nibbles)) == HexValue(raw[end..])
      invariant forall j | 0 <= j < i :: words[j] < Pow16(nibbles)
    {
      StartNext(|raw|, nibbles, i);
      var start := if end < nibbles then 0 else end - nibbles;
      var w := DecodeLimb(raw, start, end, nibbles);
      if w.None? {
        SomeBadDigit(raw, start, end);
        return None;
      }
      LimbNext(raw, nibbles, i, words[..i], w.value);
      words[i] := w.value;
      assert words[..i + 1] == words[..i] + [w.value];
      end := start;
    }
    AllDigitsUsed(|raw|, nibbles);
    assert raw[0..] == raw && words[..] == words[..words.Length];
    return Some(words[..]);
  }

  lemma NoLimbs(raw: string, nibbles: nat)
    ensures LimbStart(|raw|, nibbles, 0) == |raw|
    ensures AllHex(raw[|raw|..]) && LimbValue([], Pow16(nibbles)) == HexValue(raw[|raw|..])
  {
    assert raw[|raw|..] == [];
  }

  lemma SomeBadDigit(raw: string, start: nat, end: nat)
    requires start <= end <= |raw| && !AllHex(raw[start..end])
    ensures !AllHex(raw)
  {
    var i :| 0 <= i < end - start && Nibble(raw[start..end][i]).None?;
    assert raw[start + i] == raw[start..end][i];
  }

  lemma AllDigitsUsed(n: nat, nibbles: nat)
    requires nibbles > 0
    ensures LimbStart(n, nibbles, n / nibbles + 1) == 0
  {
    assert n == n / nibbles * nibbles + n % nibbles;
    assert (n / nibbles + 1) * nibbles == n / nibbles * nibbles + nibbles;
  }

  /** DecodeBig, for either word size. */
  method DecodeBig(input: string, nibbles: nat) returns (r: Result<nat>)
    requires nibbles == 8 || nibbles == 16
    ensures r == Quantity(input, false, 64, Big256Range)
    ensures r.Ok? ==> r.value < Pow16(64)
  {
    hide HexValue, AllHex, Pow16, LimbValue;
    var raw := CheckNumber(input, false);
    if raw.Err? { return Err(raw.error); }
    if |raw.value| > 64 { return Err(Big256Range); }
    var words := DecodeLimbs(raw.value, nibbles);
    if words.None? { return Err(Syntax); }
    HexBound(raw.value);
    Monotone(|raw.value|, 64);
    return Ok(LimbValue(words.value, Pow16(nibbles)));
  }

  class Big {
    var value: nat

    /** Big.UnmarshalText: like DecodeBig, but the empty text is 0; the receiver changes only on success. */
    method UnmarshalText(input: string, nibbles: nat) returns (err: Option<Error>)
      requires nibbles == 8 || nibbles == 16
      modifies this
      ensures var q := Quantity(input, true, 64, Big256Range);
        err == (if q.Err? then Some(q.error) else None) && value == (if q.Err? then old(value) else q.value)
    {
      hide HexValue, AllHex, Pow16, LimbValue;
      var raw := CheckNumber(input, true);
      if raw.Err? { return Some(raw.error); }
      if |raw.value| > 64 { return Some(Big256Range); }
      var words := DecodeLimbs(raw.value, nibbles);
      if words.None? { return Some(Syntax); }
      value := LimbValue(words.value, Pow16(nibbles));
      return None;
    }
  }

  class Uint64 {
    var value: nat

    /** Uint64.UnmarshalText: digit by digit in a 64-bit word. */
    method UnmarshalText(input: string) returns (err: Option<Error>)
      modifies this
      ensures var q := Quantity(input, true, 16, Uint64Range);
        err == (if q.Err? then Some(q.error) else None) && value == (if q.Err? then old(value) else q.value)
    {
      hide HexValue, AllHex, Pow16, Nibble;
      var checked := CheckNumber(input, true);
      if checked.Err? { return Some(checked.error); }
      var raw := checked.value;
      if |raw| > 16 { return Some(Uint64Range); }
      NoDigits();
      assert raw[0..0] == [];
      var dec := 0;
      for i := 0 to |raw|
        invariant value == old(value)
        invariant AllHex(raw[0..i]) && dec == HexValue(raw[0..i])
      {
        var nib := Nibble(raw[i]);
        if nib.None? {
          BadDigit(raw, 0, i, |raw|);
          assert raw[0..|raw|] == raw;
          return Some(Syntax);
        }
        LimbStep(raw, 0, i, 16);
        dec := Wrap(dec * 16, Pow16(16));
        dec := Wrap(dec + nib.value, Pow16(16));
      }
      assert raw[0..|raw|] == raw;
      value := dec;
      return None;
    }
  }

  // ---------------------------------------------------------------------------
  // Agreement and round trip
  // ---------------------------------------------------------------------------

  /** The two decoders agree, error for error, exactly on non-empty inputs that fail the shared checks or have at most 16 digits. */
  lemma DecodersAgree(input: string)
    ensures Quantity(input, false, 64, Big256Range) == Quantity(input, true, 16, Uint64Range)
       <==> input != [] && (CheckNumber(input, false).Ok? ==> |input| - 2 <= 16)
  {
    hide HexValue, AllHex;
    NoDigits();
  }

  /** A minimal run of digits. */
  predicate Canonical(raw: string)
  {
    AllHex(raw) && raw != [] && (|raw| > 1 ==> raw[0] != '0')
  }

  lemma {:induction false} LeadingDigit(raw: string)
    requires Canonical(raw) && |raw| > 1
    ensures HexValue(raw) >= Pow16(|raw| - 1)
  {
    hide HexValue, Pow16;
    var high, low := [raw[0]], raw[1..];
    assert raw == high + low;
    OneDigit(raw[0]);
    HexConcat(high, low);
    AtLeast(HexValue(high), Pow16(|low|));
  }

  lemma OneDigit(c: char)
    requires Nibble(c).Some?
    ensures AllHex([c]) && HexValue([c]) == Nibble(c).value
    ensures c != '0' ==> Nibble(c).value > 0
  {
    assert [c][..0] == [];
  }

  lemma AtLeast(a: nat, p: nat)
    requires a >= 1
    ensures a * p >= p
  {}

  /** Canonical strings with one value have the same digits, up to case. */
  lemma {:induction false} CanonicalUnique(s: string, t: string)
    requires Canonical(s) && Canonical(t) && HexValue(s) == HexValue(t)
    ensures |s| == |t| && forall i | 0 <= i < |s| :: Nibble(s[i]) == Nibble(t[i])
  {
    if |s| > |t| { LongerIsLarger(s, t); }
    if |t| > |s| { LongerIsLarger(t, s); }
    SameDigits(s, t);
  }

  lemma LongerIsLarger(s: string, t: string)
    requires Canonical(s) && Canonical(t) && |s| > |t|
    ensures HexValue(s) > HexValue(t)
  {
    hide HexValue, Pow16;
    LeadingDigit(s);
    HexBound(t);
    Monotone(|t|, |s| - 1);
  }

  lemma {:induction false} SameDigits(s: string, t: string)
    requires AllHex(s) && AllHex(t) && |s| == |t| && HexValue(s) == HexValue(t)
    ensures forall i | 0 <= i < |s| :: Nibble(s[i]) == Nibble(t[i])
  {
    if s != [] {
      SameDigits(s[..|s| - 1], t[..|t| - 1]);
      forall i | 0 <= i < |s| ensures Nibble(s[i]) == Nibble(t[i]) {
        if i < |s| - 1 { assert s[..|s| - 1][i] == s[i] && t[..|t| - 1][i] == t[i]; }
      }
    }
  }

  /** EncodeBig: the lower-case digits of n after the prefix. */
  function Digit(d: nat): (c: char)
    requires d < 16
    ensures Nibble(c) == Some(d) && (c == '0' <==> d == 0)
  {
    if d < 10 then '0' + d as char else 'a' + (d - 10) as char
  }

  function Digits(n: nat): (s: string)
  {
    if n < 16 then [Digit(n)] else Digits(n / 16) + [Digit(n % 16)]
  }

  lemma {:induction false} DigitsOf(n: nat)
    ensures Canonical(Digits(n)) && HexValue(Digits(n)) == n
    ensures n > 0 ==> Digits(n)[0] != '0'
  {
    if n >= 16 {
      DigitsOf(n / 16);
      assert Digits(n)[..|Digits(n)| - 1] == Digits(n / 16);
    } else {
      assert Digits(n)[..0] == [];
    }
  }

  /** Every number below 2^256 decodes from its own encoding. */
  lemma EncodeDecode(n: nat)
    requires n < Pow16(64)
    ensures Quantity("0x" + Digits(n), false, 64, Big256Range) == Ok(n)
  {
    hide HexValue, Pow16, Digits, AllHex;
    DigitsOf(n);
    var d := Digits(n);
    assert ("0x" + d)[2..] == d;
    if |d| > 64 {
      LeadingDigit(d);
      Monotone(64, |d| - 1);
      assert false;
    }
  }
}
