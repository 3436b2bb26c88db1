/** What the other modules share: wrapper types, and a few facts about numbers, sequences and sets. */
module Basics {
  datatype Option<+T> = None | Some(value: T)

  datatype Outcome<+T, +E> = Ok(value: T) | Err(error: E)

  /** One more than the largest uint32. */
  const U32 := 0x1_0000_0000

  function Min(a: nat, b: nat): (m: nat) { if a < b then a else b }

  function Concat<T>(cs: seq<seq<T>>): (s: seq<T>)
  {
    if cs == [] then [] else cs[0] + Concat(cs[1..])
  }

  lemma ConcatNone<T>()
    ensures Concat<T>([]) == []
  {}

  lemma {:induction false} ConcatSnoc<T>(cs: seq<seq<T>>, c: seq<T>)
    ensures Concat(cs + [c]) == Concat(cs) + c
  {
    if cs == [] {
      assert Concat([c]) == c + Concat([]);
      assert cs + [c] == [c];
    } else {
      ConcatSnoc(cs[1..], c);
      assert (cs + [c])[1..] == cs[1..] + [c];
      assert cs[0] + (Concat(cs[1..]) + c) == cs[0] + Concat(cs[1..]) + c;
    }
  }

  lemma ConcatNext<T>(cs: seq<seq<T>>, i: nat)
    requires i < |cs|
    ensures Concat(cs[..i + 1]) == Concat(cs[..i]) + cs[i]
  {
    assert cs[..i + 1] == cs[..i] + [cs[i]];
    ConcatSnoc(cs[..i], cs[i]);
  }

  lemma SubsetSize<T>(a: set<T>, b: set<T>)
    requires a <= b
    ensures |a| <= |b|
  {
    assert b == a + (b - a);
  }
}
