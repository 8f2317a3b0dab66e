/** The network topology: one declared neuron count per layer, and the sums
    over it that the layout, the renderer and the parameter counter are
    specified with. Counts are plain integers, as the command line parses
    them; a layer declared with n <= 0 neurons holds none. */
module Topology {

  /** Number of neurons a layer declared with `n` holds: iterating over
      `range(n)` visits nothing when n <= 0. */
  function Width(n: int): nat
  {
    if n < 0 then 0 else n
  }

  /** The per-layer neuron counts actually laid out. */
  function Widths(t: seq<int>): (w: seq<int>)
    ensures |w| == |t|
    ensures forall i :: 0 <= i < |t| ==> w[i] == Width(t[i]) && w[i] >= 0
    ensures (forall i :: 0 <= i < |t| ==> t[i] >= 0) ==> w == t
  {
    seq(|t|, i requires 0 <= i < |t| => Width(t[i]))
  }

  /** Sum of all entries. */
  function Sum(w: seq<int>): int
  {
    if |w| == 0 then 0 else Sum(w[..|w| - 1]) + w[|w| - 1]
  }

  /** Sum of the products of adjacent entries: the number of connections of
      a dense stack whose layers have these widths. */
  function Pairs(w: seq<int>): int
  {
    if |w| < 2 then 0 else Pairs(w[..|w| - 1]) + w[|w| - 2] * w[|w| - 1]
  }

  /** The largest declared width, as Python's `max` over the list. */
  function Max(t: seq<int>): (m: int)
    requires |t| > 0
    ensures m in t
    ensures forall i :: 0 <= i < |t| ==> t[i] <= m
  {
    if |t| == 1 then t[0]
    else
      var m := Max(t[..|t| - 1]);
      if t[|t| - 1] > m then t[|t| - 1] else m
  }

  lemma {:induction false} SumNonNegative(w: seq<int>)
    requires forall i :: 0 <= i < |w| ==> w[i] >= 0
    ensures Sum(w) >= 0
  {
    if |w| > 0 {
      SumNonNegative(w[..|w| - 1]);
    }
  }

  lemma {:induction false} PairsNonNegative(w: seq<int>)
    requires forall i :: 0 <= i < |w| ==> w[i] >= 0
    ensures Pairs(w) >= 0
  {
    if |w| >= 2 {
      PairsNonNegative(w[..|w| - 1]);
      assert w[|w| - 2] * w[|w| - 1] >= 0;
    }
  }
}
