/** The whole run: lay out the topology, draw every connection, then every
    neuron, and count the parameters. The two render passes share one
    random source, the connection pass drawing first. */
module Network {
  import opened Topology
  import opened Layout
  import opened Drawing
  import opened Parameters
  import opened ConnectionPass
  import opened NeuronPass

  /** The command-line options the model keeps (the output file name only
      selects where the figure is saved). */
  datatype Config = Config(
    neuronRadius: real,
    arrowAlpha: real,
    spacing: int,
    fontsize: int,
    showWeights: bool,
    showBiases: bool)

  /** The commands of the whole diagram of the layout `p`, unit draws taken
      from `start` on. */
  function Diagram(p: seq<seq<Point>>, cfg: Config, source: nat -> real, start: nat): seq<Command>
  {
    var es := Connections(p);
    ConnectionCommands(es, source, start, cfg.showWeights, cfg.arrowAlpha, cfg.fontsize) +
    NeuronCommands(Neurons(p), source, start + EdgeDraws(|es|, cfg.showWeights), cfg.showBiases, cfg.neuronRadius, cfg.fontsize)
  }

  /** The diagram is the connection pass followed by the neuron pass, whose
      draws start where the connection pass stopped. */
  lemma DiagramParts(p: seq<seq<Point>>, cfg: Config, source: nat -> real, start: nat, mid: nat)
    requires mid == start + EdgeDraws(|Connections(p)|, cfg.showWeights)
    ensures Diagram(p, cfg, source, start) ==
      ConnectionCommands(Connections(p), source, start, cfg.showWeights, cfg.arrowAlpha, cfg.fontsize) +
      NeuronCommands(Neurons(p), source, mid, cfg.showBiases, cfg.neuronRadius, cfg.fontsize)
  {
  }

  /** The laid-out rows hold exactly the declared widths. */
  lemma LayoutRowSizes(t: seq<int>, spacing: int)
    requires |t| > 0
    ensures RowSizes(LayoutOf(t, spacing)) == Widths(t)
  {
  }

  /** The diagram has one line per pair of neurons in adjacent layers. */
  lemma LineCount(t: seq<int>, spacing: int)
    requires |t| > 0
    ensures |Connections(LayoutOf(t, spacing))| == Pairs(Widths(t))
  {
    LayoutRowSizes(t, spacing);
    ConnectionCount(LayoutOf(t, spacing));
  }

  /** The diagram has one disc per declared neuron. */
  lemma CircleCount(t: seq<int>, spacing: int)
    requires |t| > 0
    ensures |Neurons(LayoutOf(t, spacing))| == Sum(Widths(t))
  {
    LayoutRowSizes(t, spacing);
    NeuronCount(LayoutOf(t, spacing));
  }

  /** With no negative width, the reported parameter count is one weight per
      line drawn plus one bias per disc outside the input layer. */
  lemma ParametersMatchDiagram(t: seq<int>, spacing: int)
    requires |t| > 0
    requires forall i :: 0 <= i < |t| ==> t[i] >= 0
    ensures ParamSum(t) == |Connections(LayoutOf(t, spacing))| + |Neurons(LayoutOf(t, spacing))| - t[0]
  {
    LineCount(t, spacing);
    CircleCount(t, spacing);
    ParamsAreWeightsPlusBiases(t);
  }

  /** The geometry of the diagram: a segment per connection in layer, source,
      target order, then a disc per neuron in layer order. */
  lemma DiagramShapes(t: seq<int>, cfg: Config, source: nat -> real, start: nat)
    requires |t| > 0
    ensures var p := LayoutOf(t, cfg.spacing);
      var es := Connections(p);
      var ns := Neurons(p);
      Shapes(Diagram(LayoutOf(t, cfg.spacing), cfg, source, start)) ==
        seq(|es|, c requires 0 <= c < |es| => Segment(es[c].src, es[c].dst)) +
        seq(|ns|, c requires 0 <= c < |ns| => Disc(ns[c], cfg.neuronRadius))
  {
    var p := LayoutOf(t, cfg.spacing);
    var es := Connections(p);
    var at := start + EdgeDraws(|es|, cfg.showWeights);
    DiagramParts(p, cfg, source, start, at);
    ShapesAppend(ConnectionCommands(es, source, start, cfg.showWeights, cfg.arrowAlpha, cfg.fontsize),
                 NeuronCommands(Neurons(p), source, at, cfg.showBiases, cfg.neuronRadius, cfg.fontsize));
    ConnectionShapes(es, source, start, cfg.showWeights, cfg.arrowAlpha, cfg.fontsize);
    NeuronShapes(Neurons(p), source, at, cfg.showBiases, cfg.neuronRadius, cfg.fontsize);
  }

  /** Neither toggle, nor the random draws, nor the line opacity, nor the
      font size changes what is drawn: only the labels differ. */
  lemma ShapesIndependentOfToggles(t: seq<int>, cfg: Config, cfg2: Config, source: nat -> real, source2: nat -> real, start: nat, start2: nat)
    requires |t| > 0
    requires cfg2.spacing == cfg.spacing && cfg2.neuronRadius == cfg.neuronRadius
    ensures Shapes(Diagram(LayoutOf(t, cfg.spacing), cfg, source, start)) == Shapes(Diagram(LayoutOf(t, cfg2.spacing), cfg2, source2, start2))
  {
    DiagramShapes(t, cfg, source, start);
    DiagramShapes(t, cfg2, source2, start2);
  }

  /** A label for each connection if weights are shown, and for each neuron
      if biases are shown; none otherwise. */
  lemma LabelCount(t: seq<int>, cfg: Config, source: nat -> real, start: nat)
    requires |t| > 0
    ensures |Annotations(Diagram(LayoutOf(t, cfg.spacing), cfg, source, start))| ==
      (if cfg.showWeights then Pairs(Widths(t)) else 0) + (if cfg.showBiases then Sum(Widths(t)) else 0)
  {
    var p := LayoutOf(t, cfg.spacing);
    var es := Connections(p);
    var at := start + EdgeDraws(|es|, cfg.showWeights);
    DiagramParts(p, cfg, source, start, at);
    AnnotationsAppend(ConnectionCommands(es, source, start, cfg.showWeights, cfg.arrowAlpha, cfg.fontsize),
                      NeuronCommands(Neurons(p), source, at, cfg.showBiases, cfg.neuronRadius, cfg.fontsize));
    ConnectionAnnotations(es, source, start, cfg.showWeights, cfg.arrowAlpha, cfg.fontsize);
    NeuronAnnotations(Neurons(p), source, at, cfg.showBiases, cfg.neuronRadius, cfg.fontsize);
    LineCount(t, cfg.spacing);
    CircleCount(t, cfg.spacing);
  }

  /** Two layers of 2 and 3 neurons: 6 lines and 5 discs. */
  lemma TwoByThreeExample(spacing: int)
    ensures |Connections(LayoutOf([2, 3], spacing))| == 6
    ensures |Neurons(LayoutOf([2, 3], spacing))| == 5
  {
    LineCount([2, 3], spacing);
    CircleCount([2, 3], spacing);
    assert Widths([2, 3]) == [2, 3];
    assert [2, 3][..1] == [2];
  }

  /** An empty middle layer cuts every connection but keeps the other discs. */
  lemma EmptyMiddleLayerExample(spacing: int)
    ensures |Connections(LayoutOf([3, 0, 2], spacing))| == 0
    ensures |Neurons(LayoutOf([3, 0, 2], spacing))| == 5
  {
    LineCount([3, 0, 2], spacing);
    CircleCount([3, 0, 2], spacing);
    assert Widths([3, 0, 2]) == [3, 0, 2];
    assert [3, 0, 2][..2] == [3, 0];
    assert [3, 0][..1] == [3];
  }

  /** The main pipeline: positions, connection pass, neuron pass, parameter
      count. The random source is shared by both passes. */
  method Run(t: seq<int>, cfg: Config, rng: Sampler) returns (ax: Surface, positions: seq<seq<Point>>, totalParams: int)
    requires |t| > 0
    requires rng.Valid()
    modifies rng`next
    ensures fresh(ax)
    ensures positions == LayoutOf(t, cfg.spacing)
    ensures ax.commands == Diagram(positions, cfg, rng.source, old(rng.next))
    ensures rng.next == old(rng.next) + EdgeDraws(|Connections(positions)|, cfg.showWeights) +
      BiasDraws(|Neurons(positions)|, cfg.showBiases)
    ensures totalParams == ParamSum(t)
  {
    var layers := |t|;
    positions := CreatePositions(t, cfg.spacing);
    ax := new Surface();
    assert positions[..layers] == positions;
    ghost var start := rng.next;
    DrawConnections(ax, rng, positions, layers, cfg.showWeights, cfg.fontsize, cfg.arrowAlpha);
    ghost var lines := ConnectionCommands(Connections(positions), rng.source, start, cfg.showWeights, cfg.arrowAlpha, cfg.fontsize);
    assert ax.commands == [] + lines;
    assert [] + lines == lines;
    ghost var mid := rng.next;
    DrawNeurons(ax, rng, positions, layers, cfg.showBiases, cfg.fontsize, cfg.neuronRadius);
    assert mid == start + EdgeDraws(|Connections(positions)|, cfg.showWeights);
    assert ax.commands == lines + NeuronCommands(Neurons(positions), rng.source, mid, cfg.showBiases, cfg.neuronRadius, cfg.fontsize);
    DiagramParts(positions, cfg, rng.source, start, mid);
    totalParams := CalculateParameters(t);
  }
}
