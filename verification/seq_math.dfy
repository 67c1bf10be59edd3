/** Aggregates over sequences of prices, as the LINQ operators Last, Min,
    Max and Sum compute them. */
module SeqMath {

  /** The last element of a non-empty sequence. */
  function Last<T>(s: seq<T>): T
    requires s != []
  {
    s[|s| - 1]
  }

  /** The smallest element: it occurs in s and no element is below it. */
  function Min(s: seq<real>): (m: real)
    requires s != []
    ensures m in s
    ensures forall i :: 0 <= i < |s| ==> m <= s[i]
  {
    if |s| == 1 then s[0]
    else
      var rest := Min(s[1..]);
      if s[0] <= rest then s[0] else rest
  }

  /** The largest element: it occurs in s and no element is above it. */
  function Max(s: seq<real>): (m: real)
    requires s != []
    ensures m in s
    ensures forall i :: 0 <= i < |s| ==> s[i] <= m
  {
    if |s| == 1 then s[0]
    else
      var rest := Max(s[1..]);
      if s[0] >= rest then s[0] else rest
  }

  /** The sum of all elements, accumulated from the front. */
  function Sum(s: seq<real>): real
  {
    if s == [] then 0.0 else Sum(s[..|s| - 1]) + s[|s| - 1]
  }

  function Abs(x: real): real
  {
    if x < 0.0 then -x else x
  }

  /** The last element lies between the minimum and the maximum. */
  lemma LastWithinRange(s: seq<real>)
    requires s != []
    ensures Min(s) <= Last(s) <= Max(s)
  {
  }
}
