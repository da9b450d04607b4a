/** Sums over the elements of a sequence, and the positions of some of them. */
module Sums {

  function Sum<T>(s: seq<T>, f: T -> int): int {
    if s == [] then 0 else Sum(s[..|s| - 1], f) + f(s[|s| - 1])
  }

  function SumReal<T>(s: seq<T>, f: T -> real): real {
    if s == [] then 0.0 else SumReal(s[..|s| - 1], f) + f(s[|s| - 1])
  }

  lemma SumSnoc<T>(s: seq<T>, x: T, f: T -> int)
    ensures Sum(s + [x], f) == Sum(s, f) + f(x)
  {
    assert (s + [x])[..|s|] == s;
  }

  lemma SumRealSnoc<T>(s: seq<T>, x: T, f: T -> real)
    ensures SumReal(s + [x], f) == SumReal(s, f) + f(x)
  {
    assert (s + [x])[..|s|] == s;
  }

  /** Where the elements with a property stand, in order. */
  function Positions<T>(s: seq<T>, p: T -> bool): (at: seq<nat>)
    ensures forall n :: 0 <= n < |at| ==> at[n] < |s|
  {
    if s == [] then [] else
      var n := |s| - 1;
      Positions(s[..n], p) + (if p(s[n]) then [n] else [])
  }

  lemma {:induction false} PositionsExactly<T>(s: seq<T>, p: T -> bool, i: nat)
    ensures i in Positions(s, p) <==> i < |s| && p(s[i])
    decreases |s|
  {
    if s != [] {
      var n := |s| - 1;
      PositionsExactly(s[..n], p, i);
      assert i < n ==> s[..n][i] == s[i];
    }
  }

  lemma {:induction false} PositionsIncrease<T>(s: seq<T>, p: T -> bool, m: nat, n: nat)
    requires m < n < |Positions(s, p)|
    ensures Positions(s, p)[m] < Positions(s, p)[n]
    decreases |s|
  {
    var before := Positions(s[..|s| - 1], p);
    if n < |before| {
      PositionsIncrease(s[..|s| - 1], p, m, n);
    } else {
      assert before[m] in before;
    }
  }
}
