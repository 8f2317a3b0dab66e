/** The parameter counter: the number of learnable values of a stack of
    dense layers, one weight per connection plus one bias per neuron of
    every layer after the input layer. */
module Parameters {
  import opened Topology

  /** Specification of the count: every pair of adjacent layers (prev, curr)
      contributes prev * curr weights and curr biases. */
  function ParamSum(t: seq<int>): int
  {
    if |t| < 2 then 0
    else ParamSum(t[..|t| - 1]) + t[|t| - 2] * t[|t| - 1] + t[|t| - 1]
  }

  /** The accumulator loop of the counter. */
  method CalculateParameters(t: seq<int>) returns (total: int)
    ensures total == ParamSum(t)
    ensures total == if |t| == 0 then 0 else Pairs(t) + Sum(t) - t[0]
  {
    total := 0;
    var i := 1;
    while i < |t|
      invariant 1 <= i
      invariant |t| == 0 ==> total == 0
      invariant |t| > 0 ==> i <= |t| && total == ParamSum(t[..i])
    {
      assert t[..i + 1][..i] == t[..i];
      total := total + t[i - 1] * t[i] + t[i];
      i := i + 1;
    }
    if |t| > 0 {
      assert t[..i] == t;
      ParamsAreWeightsPlusBiases(t);
    }
  }

  /** Closed form: all connection weights plus one bias for every neuron
      outside the first layer. */
  lemma {:induction false} ParamsAreWeightsPlusBiases(t: seq<int>)
    requires |t| > 0
    ensures ParamSum(t) == Pairs(t) + Sum(t) - t[0]
  {
    if |t| >= 2 {
      var u := t[..|t| - 1];
      ParamsAreWeightsPlusBiases(u);
      assert u[0] == t[0];
    }
  }

  /** The count is never negative when no layer is declared negative. */
  lemma ParamsNonNegative(t: seq<int>)
    requires forall i :: 0 <= i < |t| ==> t[i] >= 0
    ensures ParamSum(t) >= 0
  {
    if |t| > 0 {
      ParamsAreWeightsPlusBiases(t);
      PairsNonNegative(t);
      SumNonNegative(t);
      assert t[..1] == [t[0]];
      SumPrefixBound(t, 1);
    }
  }

  lemma {:induction false} SumPrefixBound(w: seq<int>, k: nat)
    requires k <= |w|
    requires forall i :: 0 <= i < |w| ==> w[i] >= 0
    ensures Sum(w[..k]) <= Sum(w)
  {
    if k < |w| {
      var u := w[..|w| - 1];
      assert w[..k] == u[..k];
      SumPrefixBound(u, k);
    } else {
      assert w[..k] == w;
    }
  }

  /** A network of one layer has no parameters. */
  lemma SingleLayerHasNone(n: int)
    ensures ParamSum([n]) == 0
  {
  }

  /** The usage example `4 8 8 8 4`: 40 + 72 + 72 + 36 parameters. */
  lemma UsageExampleCount()
    ensures ParamSum([4, 8, 8, 8, 4]) == 220
  {
    assert [4, 8][..1] == [4];
    assert ParamSum([4, 8]) == 40;
    assert [4, 8, 8][..2] == [4, 8];
    assert ParamSum([4, 8, 8]) == 112;
    assert [4, 8, 8, 8][..3] == [4, 8, 8];
    assert ParamSum([4, 8, 8, 8]) == 184;
    assert [4, 8, 8, 8, 4][..4] == [4, 8, 8, 8];
  }
}
