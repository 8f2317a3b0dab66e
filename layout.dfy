/** The layout engine: one row of neuron positions per layer, layer i at
    x = i * spacing, its neurons stacked one unit apart and shifted so that
    every layer is centred against the widest one. */
module Layout {
  import opened Topology

  datatype Point = Point(x: real, y: real)

  /** Vertical shift of layer i: half of what it lacks to the widest layer
      (true division, so half units are kept). */
  function Offset(t: seq<int>, i: nat): real
    requires i < |t|
  {
    (Max(t) - t[i]) as real / 2.0
  }

  /** Position of neuron j of layer i. */
  function PositionAt(t: seq<int>, spacing: int, i: nat, j: nat): Point
    requires i < |t|
  {
    Point((i * spacing) as real, j as real + Offset(t, i))
  }

  /** The layout as a value: row i holds the Width(t[i]) positions of layer i. */
  function LayoutOf(t: seq<int>, spacing: int): seq<seq<Point>>
    requires |t| > 0
  {
    seq(|t|, i requires 0 <= i < |t| =>
      seq(Width(t[i]), j requires 0 <= j < Width(t[i]) => PositionAt(t, spacing, i, j)))
  }

  /** Number of neurons in each row of a layout. */
  function RowSizes(p: seq<seq<Point>>): (w: seq<int>)
    ensures |w| == |p|
    ensures forall i :: 0 <= i < |p| ==> w[i] == |p[i]|
  {
    seq(|p|, i requires 0 <= i < |p| => |p[i]|)
  }

  /** Builds the rows by appending, layer by layer and neuron by neuron. */
  method CreatePositions(t: seq<int>, spacing: int) returns (positions: seq<seq<Point>>)
    requires |t| > 0
    ensures |positions| == |t|
    ensures forall i :: 0 <= i < |t| ==> |positions[i]| == Width(t[i])
    ensures forall i, j :: 0 <= i < |t| && 0 <= j < |positions[i]| ==>
      positions[i][j] == Point((i * spacing) as real, j as real + (Max(t) - t[i]) as real / 2.0)
    ensures positions == LayoutOf(t, spacing)
  {
    positions := [];
    var maxNeurons := Max(t);
    var i := 0;
    while i < |t|
      invariant 0 <= i <= |t|
      invariant positions == LayoutOf(t, spacing)[..i]
    {
      var row: seq<Point> := [];
      var n := t[i];
      var yOffset := (maxNeurons - n) as real / 2.0;
      var j := 0;
      while j < n
        invariant 0 <= j <= Width(n)
        invariant row == LayoutOf(t, spacing)[i][..j]
      {
        row := row + [Point((i * spacing) as real, j as real + yOffset)];
        j := j + 1;
      }
      assert row == LayoutOf(t, spacing)[i];
      positions := positions + [row];
      i := i + 1;
    }
  }

  /** Every position of row i lies on the vertical line x = i * spacing, so
      any neuron of the next layer is exactly `spacing` to the right of any
      neuron of this one. */
  lemma ColumnsAreSpaced(t: seq<int>, spacing: int, i: nat, j: nat, k: nat)
    requires i < |t| && j < Width(t[i])
    ensures LayoutOf(t, spacing)[i][j].x == (i * spacing) as real
    ensures i + 1 < |t| && k < Width(t[i + 1]) ==>
      LayoutOf(t, spacing)[i + 1][k].x - LayoutOf(t, spacing)[i][j].x == spacing as real
  {
  }

  /** A widest layer is not shifted: it spans y = 0 .. Max(t) - 1. */
  lemma WidestLayerSpansFromZero(t: seq<int>, spacing: int, i: nat)
    requires i < |t| && t[i] == Max(t)
    ensures forall j :: 0 <= j < Width(t[i]) ==> LayoutOf(t, spacing)[i][j].y == j as real
    ensures t[i] > 0 ==> LayoutOf(t, spacing)[i][0].y == 0.0
    ensures t[i] > 0 ==> LayoutOf(t, spacing)[i][t[i] - 1].y == (Max(t) - 1) as real
  {
  }

  /** Every layer is symmetric about the centre of the widest one: the j-th
      neuron from the top and the j-th from the bottom add up to Max(t) - 1. */
  lemma LayersAreCentred(t: seq<int>, spacing: int, i: nat, j: nat)
    requires i < |t| && j < Width(t[i])
    ensures LayoutOf(t, spacing)[i][j].y + LayoutOf(t, spacing)[i][t[i] - 1 - j].y == (Max(t) - 1) as real
  {
  }

  /** Every neuron lies within the vertical span of the widest layer. */
  lemma WithinWidestSpan(t: seq<int>, spacing: int, i: nat, j: nat)
    requires i < |t| && j < Width(t[i])
    ensures 0.0 <= LayoutOf(t, spacing)[i][j].y <= (Max(t) - 1) as real
  {
  }
}
