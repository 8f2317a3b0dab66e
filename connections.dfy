/** The connection pass: every neuron of a layer is joined to every neuron
    of the next layer by a straight line of random width, optionally labelled
    with a weight placed at a random point along it. */
module ConnectionPass {
  import opened Topology
  import opened Layout
  import opened Drawing

  datatype Edge = Edge(src: Point, dst: Point)

  /** The edges from one source neuron to each neuron of the next layer. */
  function Fan(s: Point, b: seq<Point>): (r: seq<Edge>)
    ensures |r| == |b|
    ensures forall k :: 0 <= k < |b| ==> r[k] == Edge(s, b[k])
  {
    if |b| == 0 then [] else Fan(s, b[..|b| - 1]) + [Edge(s, b[|b| - 1])]
  }

  /** The edges between two adjacent layers, source by source. */
  function LayerPairs(a: seq<Point>, b: seq<Point>): seq<Edge>
  {
    if |a| == 0 then [] else LayerPairs(a[..|a| - 1], b) + Fan(a[|a| - 1], b)
  }

  lemma {:induction false} LayerPairsLength(a: seq<Point>, b: seq<Point>)
    ensures |LayerPairs(a, b)| == |a| * |b|
  {
    if |a| > 0 {
      LayerPairsLength(a[..|a| - 1], b);
      assert (|a| - 1) * |b| + |b| == |a| * |b|;
    }
  }

  /** All edges of the diagram: layer by layer, then source, then target. */
  function Connections(p: seq<seq<Point>>): seq<Edge>
  {
    if |p| < 2 then [] else Connections(p[..|p| - 1]) + LayerPairs(p[|p| - 2], p[|p| - 1])
  }

  /** Where the edge from neuron j of layer i to neuron k of layer i + 1
      stands in the drawing order: after every edge of the earlier layers
      and of the earlier sources of layer i. */
  function EdgeIndex(p: seq<seq<Point>>, i: nat, j: nat, k: nat): nat
    requires i + 1 < |p| && j <= |p[i]|
  {
    |Connections(p[..i + 1])| + |LayerPairs(p[i][..j], p[i + 1])| + k
  }

  /** In numbers: the edges of the earlier layers, then j full fans. */
  lemma EdgeIndexFormula(p: seq<seq<Point>>, i: nat, j: nat, k: nat)
    requires i + 1 < |p| && j <= |p[i]|
    ensures EdgeIndex(p, i, j, k) == Pairs(RowSizes(p[..i + 1])) + j * |p[i + 1]| + k
  {
    LayerPairsLength(p[i][..j], p[i + 1]);
    ConnectionCount(p[..i + 1]);
  }

  lemma {:induction false} LayerPairsPrefix(a: seq<Point>, b: seq<Point>, m: nat)
    requires m <= |a|
    ensures LayerPairs(a[..m], b) <= LayerPairs(a, b)
  {
    if m < |a| {
      var u := a[..|a| - 1];
      assert u[..m] == a[..m];
      LayerPairsPrefix(u, b, m);
    } else {
      assert a[..m] == a;
    }
  }

  lemma LayerPairsAt(a: seq<Point>, b: seq<Point>, j: nat, k: nat)
    requires j < |a| && k < |b|
    ensures |LayerPairs(a[..j], b)| + k < |LayerPairs(a, b)|
    ensures LayerPairs(a, b)[|LayerPairs(a[..j], b)| + k] == Edge(a[j], b[k])
  {
    LayerPairsPrefix(a, b, j + 1);
    assert a[..j + 1][..j] == a[..j];
    assert LayerPairs(a[..j + 1], b) == LayerPairs(a[..j], b) + Fan(a[j], b);
  }

  lemma {:induction false} LayerPairsOf(a: seq<Point>, b: seq<Point>, r: nat) returns (j: nat, k: nat)
    requires r < |LayerPairs(a, b)|
    ensures j < |a| && k < |b| && r == |LayerPairs(a[..j], b)| + k
  {
    var u := a[..|a| - 1];
    if r < |LayerPairs(u, b)| {
      j, k := LayerPairsOf(u, b, r);
      assert u[..j] == a[..j];
    } else {
      j, k := |a| - 1, r - |LayerPairs(u, b)|;
    }
  }

  /** A layout is drawn with, as edges, the sum over adjacent rows of the
      products of their sizes. */
  lemma {:induction false} ConnectionCount(p: seq<seq<Point>>)
    ensures |Connections(p)| == Pairs(RowSizes(p))
  {
    if |p| >= 2 {
      var q := p[..|p| - 1];
      ConnectionCount(q);
      LayerPairsLength(p[|p| - 2], p[|p| - 1]);
      assert RowSizes(q) == RowSizes(p)[..|p| - 1];
    }
  }

  /** The edges among the first m layers come first. */
  lemma {:induction false} ConnectionsPrefix(p: seq<seq<Point>>, m: nat)
    requires m <= |p|
    ensures Connections(p[..m]) <= Connections(p)
  {
    if m < |p| {
      var q := p[..|p| - 1];
      assert q[..m] == p[..m];
      ConnectionsPrefix(q, m);
    } else {
      assert p[..m] == p;
    }
  }

  lemma FanSnoc(s: Point, b: seq<Point>, k: nat)
    requires k < |b|
    ensures Fan(s, b[..k + 1]) == Fan(s, b[..k]) + [Edge(s, b[k])]
  {
    assert b[..k + 1][..k] == b[..k];
  }

  lemma LayerPairsSnoc(a: seq<Point>, b: seq<Point>, j: nat)
    requires j < |a|
    ensures LayerPairs(a[..j + 1], b) == LayerPairs(a[..j], b) + Fan(a[j], b)
  {
    assert a[..j + 1][..j] == a[..j];
  }

  /** The rows up to m add the edges between rows m - 2 and m - 1. */
  lemma ConnectionsSnoc(p: seq<seq<Point>>, m: nat)
    requires 2 <= m <= |p|
    ensures Connections(p[..m]) == Connections(p[..m - 1]) + LayerPairs(p[m - 2], p[m - 1])
  {
    assert p[..m][..m - 1] == p[..m - 1];
  }

  /** An edge out of layer i comes before every edge out of a later layer. */
  lemma EdgeBeforeNextLayer(p: seq<seq<Point>>, i: nat, j: nat, k: nat)
    requires i + 1 < |p| && j < |p[i]| && k < |p[i + 1]|
    ensures EdgeIndex(p, i, j, k) < |Connections(p[..i + 2])|
    ensures Connections(p[..i + 2])[EdgeIndex(p, i, j, k)] == Edge(p[i][j], p[i + 1][k])
  {
    ConnectionsSnoc(p, i + 2);
    LayerPairsAt(p[i], p[i + 1], j, k);
  }

  /** Every pair of neurons in adjacent layers is connected, at the place
      EdgeIndex gives. */
  lemma ConnectionAt(p: seq<seq<Point>>, i: nat, j: nat, k: nat)
    requires i + 1 < |p| && j < |p[i]| && k < |p[i + 1]|
    ensures EdgeIndex(p, i, j, k) < |Connections(p)|
    ensures Connections(p)[EdgeIndex(p, i, j, k)] == Edge(p[i][j], p[i + 1][k])
  {
    EdgeBeforeNextLayer(p, i, j, k);
    ConnectionsPrefix(p, i + 2);
  }

  /** Conversely, every edge drawn joins some neuron of a layer to some
      neuron of the next one. */
  lemma {:induction false} EdgeOf(p: seq<seq<Point>>, c: nat) returns (i: nat, j: nat, k: nat)
    requires c < |Connections(p)|
    ensures i + 1 < |p| && j < |p[i]| && k < |p[i + 1]|
    ensures c == EdgeIndex(p, i, j, k)
    ensures Connections(p)[c] == Edge(p[i][j], p[i + 1][k])
  {
    var q := p[..|p| - 1];
    if c < |Connections(q)| {
      i, j, k := EdgeOf(q, c);
      assert q[..i + 1] == p[..i + 1];
    } else {
      i := |p| - 2;
      j, k := LayerPairsOf(p[i], p[i + 1], c - |Connections(q)|);
      assert q == p[..i + 1];
    }
    ConnectionAt(p, i, j, k);
  }

  /** Edges are drawn in layer, then source, then target order. */
  lemma ConnectionOrder(p: seq<seq<Point>>, i: nat, j: nat, k: nat, i2: nat, j2: nat, k2: nat)
    requires i + 1 < |p| && j < |p[i]| && k < |p[i + 1]|
    requires i2 + 1 < |p| && j2 < |p[i2]| && k2 < |p[i2 + 1]|
    requires i < i2 || (i == i2 && j < j2) || (i == i2 && j == j2 && k < k2)
    ensures EdgeIndex(p, i, j, k) < EdgeIndex(p, i2, j2, k2)
  {
    if i < i2 {
      EdgeBeforeNextLayer(p, i, j, k);
      assert p[..i2 + 1][..i + 2] == p[..i + 2];
      ConnectionsPrefix(p[..i2 + 1], i + 2);
    } else if j < j2 {
      SourceBeforeLaterSource(p[i], p[i + 1], j, j2, k);
    }
  }

  lemma SourceBeforeLaterSource(a: seq<Point>, b: seq<Point>, j: nat, j2: nat, k: nat)
    requires j < j2 <= |a| && k < |b|
    ensures |LayerPairs(a[..j], b)| + k < |LayerPairs(a[..j2], b)|
  {
    assert a[..j + 1][..j] == a[..j];
    assert LayerPairs(a[..j + 1], b) == LayerPairs(a[..j], b) + Fan(a[j], b);
    assert a[..j2][..j + 1] == a[..j + 1];
    LayerPairsPrefix(a[..j2], b, j + 1);
  }

  /** Unit draws taken by `count` edges: one for each width, and one more
      for each label position when weights are shown. */
  function EdgeDraws(count: nat, showWeights: bool): nat
  {
    if showWeights then 2 * count else count
  }

  /** What drawing one edge adds, its unit draws starting at `at`. */
  function EdgeCommands(e: Edge, source: nat -> real, at: nat, showWeights: bool, alpha: real, fontsize: int): seq<Command>
  {
    var width := Scale(0.3, 1.5, source(at));
    [Line(e.src, e.dst, width, alpha)] +
      if showWeights
      then [Text(Weight(width / 1.5), Lerp(e.src, e.dst, Scale(0.3, 0.7, source(at + 1))), fontsize)]
      else []
  }

  /** What drawing the edges `es` in order adds, the unit draws starting at `start`. */
  function ConnectionCommands(es: seq<Edge>, source: nat -> real, start: nat, showWeights: bool, alpha: real, fontsize: int): seq<Command>
  {
    if |es| == 0 then []
    else
      ConnectionCommands(es[..|es| - 1], source, start, showWeights, alpha, fontsize) +
      EdgeCommands(es[|es| - 1], source, start + EdgeDraws(|es| - 1, showWeights), showWeights, alpha, fontsize)
  }

  /** One edge: a line from its source to its target of width in [0.3, 1.5);
      with weights shown, a label of value width / 1.5 in [0.2, 1) at a point
      a fraction in [0.3, 0.7) along the line; without, nothing else. */
  lemma EdgeCommandsShape(e: Edge, source: nat -> real, at: nat, showWeights: bool, alpha: real, fontsize: int)
    requires forall n: nat :: 0.0 <= source(n) < 1.0
    ensures var cmds := EdgeCommands(e, source, at, showWeights, alpha, fontsize);
      var width := Scale(0.3, 1.5, source(at));
      var f := Scale(0.3, 0.7, source(at + 1));
      |cmds| == EdgeDraws(1, showWeights) &&
      cmds[0] == Line(e.src, e.dst, width, alpha) && 0.3 <= width < 1.5 &&
      (showWeights ==>
        cmds[1] == Text(Weight(width / 1.5), Lerp(e.src, e.dst, f), fontsize) &&
        0.2 <= width / 1.5 < 1.0 && 0.3 <= f < 0.7 &&
        Between(e.src.x, e.dst.x, cmds[1].at.x) && Between(e.src.y, e.dst.y, cmds[1].at.y))
  {
    ScaleRange(0.3, 1.5, source(at));
    ScaleRange(0.3, 0.7, source(at + 1));
    LerpOnSegment(e.src, e.dst, Scale(0.3, 0.7, source(at + 1)));
  }

  /** Edge c's commands are the block that starts after the commands of the
      c edges before it, and it uses the unit draws after theirs. */
  lemma {:induction false} ConnectionCommandsAt(es: seq<Edge>, source: nat -> real, start: nat, showWeights: bool, alpha: real, fontsize: int, c: nat)
    requires c < |es|
    ensures var cmds := ConnectionCommands(es, source, start, showWeights, alpha, fontsize);
      var first := EdgeDraws(c, showWeights);
      |cmds| == EdgeDraws(|es|, showWeights) &&
      cmds[first .. first + EdgeDraws(1, showWeights)] ==
        EdgeCommands(es[c], source, start + first, showWeights, alpha, fontsize)
  {
    var u := es[..|es| - 1];
    if c < |u| {
      ConnectionCommandsAt(u, source, start, showWeights, alpha, fontsize, c);
    } else if |u| > 0 {
      ConnectionCommandsAt(u, source, start, showWeights, alpha, fontsize, 0);
    }
  }

  lemma EdgeCommandsGeometry(e: Edge, source: nat -> real, at: nat, showWeights: bool, alpha: real, fontsize: int)
    ensures Shapes(EdgeCommands(e, source, at, showWeights, alpha, fontsize)) == [Segment(e.src, e.dst)]
    ensures |Annotations(EdgeCommands(e, source, at, showWeights, alpha, fontsize))| == if showWeights then 1 else 0
  {
    var cmds := EdgeCommands(e, source, at, showWeights, alpha, fontsize);
    var line := Line(e.src, e.dst, Scale(0.3, 1.5, source(at)), alpha);
    assert Shapes([line]) == [Segment(e.src, e.dst)] by {
      assert [line][..0] == [];
    }
    assert Annotations([line]) == [] by {
      assert [line][..0] == [];
    }
    if showWeights {
      assert cmds[..1] == [line];
    } else {
      assert cmds == [line];
    }
  }

  /** The geometry drawn is one segment per edge, in order, whatever the
      random draws and whether or not weights are shown. */
  lemma {:induction false} ConnectionShapes(es: seq<Edge>, source: nat -> real, start: nat, showWeights: bool, alpha: real, fontsize: int)
    ensures Shapes(ConnectionCommands(es, source, start, showWeights, alpha, fontsize)) ==
      seq(|es|, c requires 0 <= c < |es| => Segment(es[c].src, es[c].dst))
  {
    if |es| > 0 {
      var u := es[..|es| - 1];
      var e := es[|es| - 1];
      var at := start + EdgeDraws(|u|, showWeights);
      ConnectionShapes(u, source, start, showWeights, alpha, fontsize);
      ShapesAppend(ConnectionCommands(u, source, start, showWeights, alpha, fontsize),
                   EdgeCommands(e, source, at, showWeights, alpha, fontsize));
      EdgeCommandsGeometry(e, source, at, showWeights, alpha, fontsize);
    }
  }

  /** There is one weight label per edge when weights are shown, none otherwise. */
  lemma {:induction false} ConnectionAnnotations(es: seq<Edge>, source: nat -> real, start: nat, showWeights: bool, alpha: real, fontsize: int)
    ensures |Annotations(ConnectionCommands(es, source, start, showWeights, alpha, fontsize))| ==
      if showWeights then |es| else 0
  {
    if |es| > 0 {
      var u := es[..|es| - 1];
      var e := es[|es| - 1];
      var at := start + EdgeDraws(|u|, showWeights);
      ConnectionAnnotations(u, source, start, showWeights, alpha, fontsize);
      AnnotationsAppend(ConnectionCommands(u, source, start, showWeights, alpha, fontsize),
                        EdgeCommands(e, source, at, showWeights, alpha, fontsize));
      EdgeCommandsGeometry(e, source, at, showWeights, alpha, fontsize);
    }
  }

  /** Drawing two runs of edges one after the other draws their concatenation. */
  lemma {:induction false} ConnectionCommandsAppend(es: seq<Edge>, more: seq<Edge>, source: nat -> real, start: nat, showWeights: bool, alpha: real, fontsize: int)
    ensures ConnectionCommands(es + more, source, start, showWeights, alpha, fontsize) ==
      ConnectionCommands(es, source, start, showWeights, alpha, fontsize) +
      ConnectionCommands(more, source, start + EdgeDraws(|es|, showWeights), showWeights, alpha, fontsize)
  {
    if |more| == 0 {
      assert es + more == es;
    } else {
      var u := more[..|more| - 1];
      ConnectionCommandsAppend(es, u, source, start, showWeights, alpha, fontsize);
      AppendOneMore(es, u, more[|more| - 1], source, start, showWeights, alpha, fontsize);
      assert u + [more[|more| - 1]] == more;
    }
  }

  lemma {:induction false} AppendOneMore(es: seq<Edge>, u: seq<Edge>, e: Edge, source: nat -> real, start: nat, showWeights: bool, alpha: real, fontsize: int)
    requires ConnectionCommands(es + u, source, start, showWeights, alpha, fontsize) ==
      ConnectionCommands(es, source, start, showWeights, alpha, fontsize) +
      ConnectionCommands(u, source, start + EdgeDraws(|es|, showWeights), showWeights, alpha, fontsize)
    ensures ConnectionCommands(es + (u + [e]), source, start, showWeights, alpha, fontsize) ==
      ConnectionCommands(es, source, start, showWeights, alpha, fontsize) +
      ConnectionCommands(u + [e], source, start + EdgeDraws(|es|, showWeights), showWeights, alpha, fontsize)
  {
    var mid := start + EdgeDraws(|es|, showWeights);
    assert es + (u + [e]) == (es + u) + [e];
    var at := mid + EdgeDraws(|u|, showWeights);
    assert at == start + EdgeDraws(|es + u|, showWeights);
    ConnectionCommandsSnoc(es + u, e, source, start, at, showWeights, alpha, fontsize);
    ConnectionCommandsSnoc(u, e, source, mid, at, showWeights, alpha, fontsize);
    AppendAssoc(ConnectionCommands(es, source, start, showWeights, alpha, fontsize),
      ConnectionCommands(u, source, mid, showWeights, alpha, fontsize),
      EdgeCommands(e, source, at, showWeights, alpha, fontsize));
  }

  lemma ConnectionCommandsSnoc(es: seq<Edge>, e: Edge, source: nat -> real, start: nat, at: nat, showWeights: bool, alpha: real, fontsize: int)
    requires at == start + EdgeDraws(|es|, showWeights)
    ensures ConnectionCommands(es + [e], source, start, showWeights, alpha, fontsize) ==
      ConnectionCommands(es, source, start, showWeights, alpha, fontsize) +
      EdgeCommands(e, source, at, showWeights, alpha, fontsize)
  {
    assert (es + [e])[..|es|] == es;
  }

  /** Drawing one more edge of a fan appends that edge's commands. */
  lemma FanStep(src: Point, targets: seq<Point>, k: nat, source: nat -> real, start: nat, at: nat, showWeights: bool, alpha: real, fontsize: int)
    requires k < |targets|
    requires at == start + EdgeDraws(k, showWeights)
    ensures ConnectionCommands(Fan(src, targets[..k + 1]), source, start, showWeights, alpha, fontsize) ==
      ConnectionCommands(Fan(src, targets[..k]), source, start, showWeights, alpha, fontsize) +
      EdgeCommands(Edge(src, targets[k]), source, at, showWeights, alpha, fontsize)
  {
    FanSnoc(src, targets, k);
    ConnectionCommandsSnoc(Fan(src, targets[..k]), Edge(src, targets[k]), source, start, at, showWeights, alpha, fontsize);
  }

  /** Drawing the fan of one more source of a layer appends that fan's commands. */
  lemma LayerStep(sources: seq<Point>, targets: seq<Point>, j: nat, source: nat -> real, start: nat, at: nat, showWeights: bool, alpha: real, fontsize: int)
    requires j < |sources|
    requires at == start + EdgeDraws(|LayerPairs(sources[..j], targets)|, showWeights)
    ensures ConnectionCommands(LayerPairs(sources[..j + 1], targets), source, start, showWeights, alpha, fontsize) ==
      ConnectionCommands(LayerPairs(sources[..j], targets), source, start, showWeights, alpha, fontsize) +
      ConnectionCommands(Fan(sources[j], targets), source, at, showWeights, alpha, fontsize)
    ensures start + EdgeDraws(|LayerPairs(sources[..j + 1], targets)|, showWeights) == at + EdgeDraws(|targets|, showWeights)
  {
    LayerPairsSnoc(sources, targets, j);
    ConnectionCommandsAppend(LayerPairs(sources[..j], targets), Fan(sources[j], targets), source, start, showWeights, alpha, fontsize);
  }

  /** Drawing the edges of one more pair of layers appends their commands. */
  lemma ConnectionsStep(p: seq<seq<Point>>, i: nat, source: nat -> real, start: nat, showWeights: bool, alpha: real, fontsize: int)
    requires i + 1 < |p|
    ensures ConnectionCommands(Connections(p[..i + 2]), source, start, showWeights, alpha, fontsize) ==
      ConnectionCommands(Connections(p[..i + 1]), source, start, showWeights, alpha, fontsize) +
      ConnectionCommands(LayerPairs(p[i], p[i + 1]), source, start + EdgeDraws(|Connections(p[..i + 1])|, showWeights), showWeights, alpha, fontsize)
    ensures EdgeDraws(|Connections(p[..i + 2])|, showWeights) ==
      EdgeDraws(|Connections(p[..i + 1])|, showWeights) + EdgeDraws(|LayerPairs(p[i], p[i + 1])|, showWeights)
  {
    ConnectionsSnoc(p, i + 2);
    assert p[..i + 2][..i + 1] == p[..i + 1];
    ConnectionCommandsAppend(Connections(p[..i + 1]), LayerPairs(p[i], p[i + 1]), source, start, showWeights, alpha, fontsize);
  }

  /** Draws one connection: the body of the innermost loop of the pass. */
  method DrawEdge(ax: Surface, rng: Sampler, src: Point, dst: Point, showWeights: bool, fontsize: int, alpha: real)
    requires rng.Valid()
    modifies ax, rng`next
    ensures rng.next == old(rng.next) + EdgeDraws(1, showWeights)
    ensures ax.commands == old(ax.commands) + EdgeCommands(Edge(src, dst), rng.source, old(rng.next), showWeights, alpha, fontsize)
  {
    ghost var expected := EdgeCommands(Edge(src, dst), rng.source, rng.next, showWeights, alpha, fontsize);
    var linewidth := rng.Uniform(0.3, 1.5);
    ax.AddPatch(Line(src, dst, linewidth, alpha));
    if showWeights {
      var weight := linewidth / 1.5;
      var randomPosition := rng.Uniform(0.3, 0.7);
      var midPoint := Lerp(src, dst, randomPosition);
      ax.Annotate(Weight(weight), midPoint, fontsize);
      assert expected == [Line(src, dst, linewidth, alpha), Text(Weight(weight), midPoint, fontsize)];
    } else {
      assert expected == [Line(src, dst, linewidth, alpha)];
    }
  }

  /** Draws the connections from one source neuron: the innermost loop of the pass. */
  method DrawFan(ax: Surface, rng: Sampler, src: Point, targets: seq<Point>, showWeights: bool, fontsize: int, alpha: real)
    requires rng.Valid()
    modifies ax, rng`next
    ensures rng.next == old(rng.next) + EdgeDraws(|targets|, showWeights)
    ensures ax.commands == old(ax.commands) + ConnectionCommands(Fan(src, targets), rng.source, old(rng.next), showWeights, alpha, fontsize)
  {
    ghost var start := rng.next;
    ghost var drawn: seq<Command> := [];
    var k := 0;
    while k < |targets|
      invariant 0 <= k <= |targets|
      invariant ax.commands == old(ax.commands) + drawn
      invariant drawn == ConnectionCommands(Fan(src, targets[..k]), rng.source, start, showWeights, alpha, fontsize)
      invariant rng.next == start + EdgeDraws(k, showWeights)
    {
      ghost var at := rng.next;
      DrawEdge(ax, rng, src, targets[k], showWeights, fontsize, alpha);
      ghost var edge := EdgeCommands(Edge(src, targets[k]), rng.source, at, showWeights, alpha, fontsize);
      FanStep(src, targets, k, rng.source, start, at, showWeights, alpha, fontsize);
      AppendAssoc(old(ax.commands), drawn, edge);
      drawn := drawn + edge;
      k := k + 1;
    }
    assert targets[..k] == targets;
  }

  /** Draws the edges between two adjacent layers: the middle loop of the pass. */
  method DrawLayerPairs(ax: Surface, rng: Sampler, sources: seq<Point>, targets: seq<Point>, showWeights: bool, fontsize: int, alpha: real)
    requires rng.Valid()
    modifies ax, rng`next
    ensures rng.next == old(rng.next) + EdgeDraws(|LayerPairs(sources, targets)|, showWeights)
    ensures ax.commands == old(ax.commands) + ConnectionCommands(LayerPairs(sources, targets), rng.source, old(rng.next), showWeights, alpha, fontsize)
  {
    ghost var start := rng.next;
    ghost var drawn: seq<Command> := [];
    var j := 0;
    while j < |sources|
      invariant 0 <= j <= |sources|
      invariant ax.commands == old(ax.commands) + drawn
      invariant drawn == ConnectionCommands(LayerPairs(sources[..j], targets), rng.source, start, showWeights, alpha, fontsize)
      invariant rng.next == start + EdgeDraws(|LayerPairs(sources[..j], targets)|, showWeights)
    {
      ghost var at := rng.next;
      DrawFan(ax, rng, sources[j], targets, showWeights, fontsize, alpha);
      ghost var fan := ConnectionCommands(Fan(sources[j], targets), rng.source, at, showWeights, alpha, fontsize);
      LayerStep(sources, targets, j, rng.source, start, at, showWeights, alpha, fontsize);
      AppendAssoc(old(ax.commands), drawn, fan);
      drawn := drawn + fan;
      j := j + 1;
    }
    assert sources[..j] == sources;
  }

  /** The connection pass over the first `layers` rows of `positions`. */
  method DrawConnections(ax: Surface, rng: Sampler, positions: seq<seq<Point>>, layers: nat,
                         showWeights: bool, fontsize: int, alpha: real)
    requires rng.Valid()
    requires layers <= |positions|
    modifies ax, rng`next
    ensures rng.Valid()
    ensures ax.commands == old(ax.commands) +
      ConnectionCommands(Connections(positions[..layers]), rng.source, old(rng.next), showWeights, alpha, fontsize)
    ensures rng.next == old(rng.next) + EdgeDraws(|Connections(positions[..layers])|, showWeights)
  {
    ghost var start := rng.next;
    if layers == 0 {
      return;
    }
    ghost var drawn: seq<Command> := [];
    var i := 0;
    while i + 1 < layers
      invariant i < layers
      invariant ax.commands == old(ax.commands) + drawn
      invariant drawn == ConnectionCommands(Connections(positions[..i + 1]), rng.source, start, showWeights, alpha, fontsize)
      invariant rng.next == start + EdgeDraws(|Connections(positions[..i + 1])|, showWeights)
    {
      ghost var at := rng.next;
      DrawLayerPairs(ax, rng, positions[i], positions[i + 1], showWeights, fontsize, alpha);
      ghost var pairs := ConnectionCommands(LayerPairs(positions[i], positions[i + 1]), rng.source, at, showWeights, alpha, fontsize);
      ConnectionsStep(positions, i, rng.source, start, showWeights, alpha, fontsize);
      AppendAssoc(old(ax.commands), drawn, pairs);
      drawn := drawn + pairs;
      i := i + 1;
    }
  }
}
