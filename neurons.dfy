/** The neuron pass: a disc of the configured radius at every position,
    layer by layer, optionally labelled with a random bias placed 0.4 below
    the neuron. */
module NeuronPass {
  import opened Topology
  import opened Layout
  import opened Drawing

  /** All neurons of a layout, layer by layer, in row order. */
  function Neurons(p: seq<seq<Point>>): seq<Point>
  {
    if |p| == 0 then [] else Neurons(p[..|p| - 1]) + p[|p| - 1]
  }

  /** Where neuron j of layer i stands in the drawing order: after every
      neuron of the earlier layers. */
  function NeuronIndex(p: seq<seq<Point>>, i: nat, j: nat): nat
    requires i < |p|
  {
    |Neurons(p[..i])| + j
  }

  /** One neuron per declared position: as many as the rows hold together. */
  lemma {:induction false} NeuronCount(p: seq<seq<Point>>)
    ensures |Neurons(p)| == Sum(RowSizes(p))
  {
    if |p| > 0 {
      NeuronCount(p[..|p| - 1]);
      assert RowSizes(p)[..|p| - 1] == RowSizes(p[..|p| - 1]);
    }
  }

  lemma {:induction false} NeuronsPrefix(p: seq<seq<Point>>, m: nat)
    requires m <= |p|
    ensures Neurons(p[..m]) <= Neurons(p)
  {
    if m < |p| {
      var u := p[..|p| - 1];
      assert u[..m] == p[..m];
      NeuronsPrefix(u, m);
    } else {
      assert p[..m] == p;
    }
  }

  lemma NeuronsSnoc(p: seq<seq<Point>>, i: nat)
    requires i < |p|
    ensures Neurons(p[..i + 1]) == Neurons(p[..i]) + p[i]
  {
    assert p[..i + 1][..i] == p[..i];
  }

  /** Every position is drawn, at the place NeuronIndex gives. */
  lemma NeuronAt(p: seq<seq<Point>>, i: nat, j: nat)
    requires i < |p| && j < |p[i]|
    ensures NeuronIndex(p, i, j) < |Neurons(p)|
    ensures Neurons(p)[NeuronIndex(p, i, j)] == p[i][j]
  {
    NeuronsSnoc(p, i);
    NeuronsPrefix(p, i + 1);
  }

  /** Conversely, every neuron drawn is the position of some neuron j of
      some layer i. */
  lemma {:induction false} NeuronOf(p: seq<seq<Point>>, c: nat) returns (i: nat, j: nat)
    requires c < |Neurons(p)|
    ensures i < |p| && j < |p[i]|
    ensures c == NeuronIndex(p, i, j) && Neurons(p)[c] == p[i][j]
  {
    var u := p[..|p| - 1];
    assert p[..|p| - 1] == u;
    if c < |Neurons(u)| {
      i, j := NeuronOf(u, c);
      assert u[..i] == p[..i];
    } else {
      i, j := |p| - 1, c - |Neurons(u)|;
    }
  }

  /** Neurons are drawn layer by layer, and within a layer in row order. */
  lemma NeuronOrder(p: seq<seq<Point>>, i: nat, j: nat, i2: nat, j2: nat)
    requires i < |p| && j < |p[i]| && i2 < |p| && j2 < |p[i2]|
    requires i < i2 || (i == i2 && j < j2)
    ensures NeuronIndex(p, i, j) < NeuronIndex(p, i2, j2)
  {
    if i < i2 {
      NeuronsSnoc(p, i);
      assert p[..i2][..i + 1] == p[..i + 1];
      NeuronsPrefix(p[..i2], i + 1);
    }
  }

  /** Unit draws taken by `count` neurons: one bias each when biases are
      shown, none otherwise. */
  function BiasDraws(count: nat, showBiases: bool): nat
  {
    if showBiases then count else 0
  }

  /** What drawing one neuron adds, its bias draw (if any) at `at`. */
  function DiscCommands(n: Point, source: nat -> real, at: nat, showBiases: bool, radius: real, fontsize: int): seq<Command>
  {
    [Circle(n, radius)] +
      if showBiases
      then [Text(Bias(Scale(0.0, 1.0, source(at))), Point(n.x, n.y - 0.4), fontsize)]
      else []
  }

  /** What drawing the neurons `ns` in order adds, the bias draws starting at `start`. */
  function NeuronCommands(ns: seq<Point>, source: nat -> real, start: nat, showBiases: bool, radius: real, fontsize: int): seq<Command>
  {
    if |ns| == 0 then []
    else
      NeuronCommands(ns[..|ns| - 1], source, start, showBiases, radius, fontsize) +
      DiscCommands(ns[|ns| - 1], source, start + BiasDraws(|ns| - 1, showBiases), showBiases, radius, fontsize)
  }

  /** One neuron: a disc of the given radius centred on it; with biases
      shown, a label of value in [0, 1) 0.4 below it; without, nothing else. */
  lemma DiscCommandsShape(n: Point, source: nat -> real, at: nat, showBiases: bool, radius: real, fontsize: int)
    requires forall m: nat :: 0.0 <= source(m) < 1.0
    ensures var cmds := DiscCommands(n, source, at, showBiases, radius, fontsize);
      var bias := Scale(0.0, 1.0, source(at));
      |cmds| == 1 + BiasDraws(1, showBiases) &&
      cmds[0] == Circle(n, radius) &&
      (showBiases ==>
        cmds[1] == Text(Bias(bias), Point(n.x, n.y - 0.4), fontsize) && 0.0 <= bias < 1.0)
  {
    ScaleRange(0.0, 1.0, source(at));
  }

  lemma DiscGeometry(n: Point, source: nat -> real, at: nat, showBiases: bool, radius: real, fontsize: int)
    ensures Shapes(DiscCommands(n, source, at, showBiases, radius, fontsize)) == [Disc(n, radius)]
    ensures |Annotations(DiscCommands(n, source, at, showBiases, radius, fontsize))| == if showBiases then 1 else 0
  {
    var cmds := DiscCommands(n, source, at, showBiases, radius, fontsize);
    var circle := Circle(n, radius);
    assert Shapes([circle]) == [Disc(n, radius)] by {
      assert [circle][..0] == [];
    }
    assert Annotations([circle]) == [] by {
      assert [circle][..0] == [];
    }
    if showBiases {
      assert cmds[..1] == [circle];
    } else {
      assert cmds == [circle];
    }
  }

  /** Neuron c's commands are the block after the commands of the c neurons
      before it, and its bias uses the draw after theirs. */
  lemma {:induction false} NeuronCommandsAt(ns: seq<Point>, source: nat -> real, start: nat, showBiases: bool, radius: real, fontsize: int, c: nat)
    requires c < |ns|
    ensures var cmds := NeuronCommands(ns, source, start, showBiases, radius, fontsize);
      var first := c + BiasDraws(c, showBiases);
      |cmds| == |ns| + BiasDraws(|ns|, showBiases) &&
      cmds[first .. first + 1 + BiasDraws(1, showBiases)] ==
        DiscCommands(ns[c], source, start + BiasDraws(c, showBiases), showBiases, radius, fontsize)
  {
    var u := ns[..|ns| - 1];
    if c < |u| {
      NeuronCommandsAt(u, source, start, showBiases, radius, fontsize, c);
    } else if |u| > 0 {
      NeuronCommandsAt(u, source, start, showBiases, radius, fontsize, 0);
    }
  }

  /** The geometry drawn is one disc per neuron, in order, whatever the
      random draws and whether or not biases are shown. */
  lemma {:induction false} NeuronShapes(ns: seq<Point>, source: nat -> real, start: nat, showBiases: bool, radius: real, fontsize: int)
    ensures Shapes(NeuronCommands(ns, source, start, showBiases, radius, fontsize)) ==
      seq(|ns|, c requires 0 <= c < |ns| => Disc(ns[c], radius))
  {
    if |ns| > 0 {
      var u := ns[..|ns| - 1];
      var n := ns[|ns| - 1];
      var at := start + BiasDraws(|u|, showBiases);
      NeuronShapes(u, source, start, showBiases, radius, fontsize);
      ShapesAppend(NeuronCommands(u, source, start, showBiases, radius, fontsize),
                   DiscCommands(n, source, at, showBiases, radius, fontsize));
      DiscGeometry(n, source, at, showBiases, radius, fontsize);
    }
  }

  /** There is one bias label per neuron when biases are shown, none otherwise. */
  lemma {:induction false} NeuronAnnotations(ns: seq<Point>, source: nat -> real, start: nat, showBiases: bool, radius: real, fontsize: int)
    ensures |Annotations(NeuronCommands(ns, source, start, showBiases, radius, fontsize))| ==
      if showBiases then |ns| else 0
  {
    if |ns| > 0 {
      var u := ns[..|ns| - 1];
      var n := ns[|ns| - 1];
      var at := start + BiasDraws(|u|, showBiases);
      NeuronAnnotations(u, source, start, showBiases, radius, fontsize);
      AnnotationsAppend(NeuronCommands(u, source, start, showBiases, radius, fontsize),
                        DiscCommands(n, source, at, showBiases, radius, fontsize));
      DiscGeometry(n, source, at, showBiases, radius, fontsize);
    }
  }

  lemma NeuronCommandsSnoc(ns: seq<Point>, n: Point, source: nat -> real, start: nat, at: nat, showBiases: bool, radius: real, fontsize: int)
    requires at == start + BiasDraws(|ns|, showBiases)
    ensures NeuronCommands(ns + [n], source, start, showBiases, radius, fontsize) ==
      NeuronCommands(ns, source, start, showBiases, radius, fontsize) +
      DiscCommands(n, source, at, showBiases, radius, fontsize)
  {
    assert (ns + [n])[..|ns|] == ns;
  }

  /** Drawing two runs of neurons one after the other draws their concatenation. */
  lemma {:induction false} NeuronCommandsAppend(ns: seq<Point>, more: seq<Point>, source: nat -> real, start: nat, showBiases: bool, radius: real, fontsize: int)
    ensures NeuronCommands(ns + more, source, start, showBiases, radius, fontsize) ==
      NeuronCommands(ns, source, start, showBiases, radius, fontsize) +
      NeuronCommands(more, source, start + BiasDraws(|ns|, showBiases), showBiases, radius, fontsize)
  {
    if |more| == 0 {
      assert ns + more == ns;
    } else {
      var u := more[..|more| - 1];
      NeuronCommandsAppend(ns, u, source, start, showBiases, radius, fontsize);
      NeuronAppendOneMore(ns, u, more[|more| - 1], source, start, showBiases, radius, fontsize);
      assert u + [more[|more| - 1]] == more;
    }
  }

  lemma {:induction false} NeuronAppendOneMore(ns: seq<Point>, u: seq<Point>, n: Point, source: nat -> real, start: nat, showBiases: bool, radius: real, fontsize: int)
    requires NeuronCommands(ns + u, source, start, showBiases, radius, fontsize) ==
      NeuronCommands(ns, source, start, showBiases, radius, fontsize) +
      NeuronCommands(u, source, start + BiasDraws(|ns|, showBiases), showBiases, radius, fontsize)
    ensures NeuronCommands(ns + (u + [n]), source, start, showBiases, radius, fontsize) ==
      NeuronCommands(ns, source, start, showBiases, radius, fontsize) +
      NeuronCommands(u + [n], source, start + BiasDraws(|ns|, showBiases), showBiases, radius, fontsize)
  {
    var mid := start + BiasDraws(|ns|, showBiases);
    assert ns + (u + [n]) == (ns + u) + [n];
    var at := mid + BiasDraws(|u|, showBiases);
    assert at == start + BiasDraws(|ns + u|, showBiases);
    NeuronCommandsSnoc(ns + u, n, source, start, at, showBiases, radius, fontsize);
    NeuronCommandsSnoc(u, n, source, mid, at, showBiases, radius, fontsize);
    AppendAssoc(NeuronCommands(ns, source, start, showBiases, radius, fontsize),
      NeuronCommands(u, source, mid, showBiases, radius, fontsize),
      DiscCommands(n, source, at, showBiases, radius, fontsize));
  }

  /** Drawing the neurons of one more layer appends that layer's commands. */
  lemma NeuronsStep(p: seq<seq<Point>>, i: nat, source: nat -> real, start: nat, at: nat, showBiases: bool, radius: real, fontsize: int)
    requires i < |p|
    requires at == start + BiasDraws(|Neurons(p[..i])|, showBiases)
    ensures NeuronCommands(Neurons(p[..i + 1]), source, start, showBiases, radius, fontsize) ==
      NeuronCommands(Neurons(p[..i]), source, start, showBiases, radius, fontsize) +
      NeuronCommands(p[i], source, at, showBiases, radius, fontsize)
    ensures start + BiasDraws(|Neurons(p[..i + 1])|, showBiases) == at + BiasDraws(|p[i]|, showBiases)
  {
    NeuronsSnoc(p, i);
    NeuronCommandsAppend(Neurons(p[..i]), p[i], source, start, showBiases, radius, fontsize);
  }

  /** Draws one neuron: the body of the inner loop of the pass. */
  method DrawNeuron(ax: Surface, rng: Sampler, n: Point, showBiases: bool, fontsize: int, radius: real)
    requires rng.Valid()
    modifies ax, rng`next
    ensures rng.next == old(rng.next) + BiasDraws(1, showBiases)
    ensures ax.commands == old(ax.commands) + DiscCommands(n, rng.source, old(rng.next), showBiases, radius, fontsize)
  {
    ghost var expected := DiscCommands(n, rng.source, rng.next, showBiases, radius, fontsize);
    ax.AddPatch(Circle(n, radius));
    if showBiases {
      var bias := rng.Uniform(0.0, 1.0);
      ax.Annotate(Bias(bias), Point(n.x, n.y - 0.4), fontsize);
      assert expected == [Circle(n, radius), Text(Bias(bias), Point(n.x, n.y - 0.4), fontsize)];
    } else {
      assert expected == [Circle(n, radius)];
    }
  }

  /** Draws the neurons of one layer: the inner loop of the pass. */
  method DrawRow(ax: Surface, rng: Sampler, row: seq<Point>, showBiases: bool, fontsize: int, radius: real)
    requires rng.Valid()
    modifies ax, rng`next
    ensures rng.next == old(rng.next) + BiasDraws(|row|, showBiases)
    ensures ax.commands == old(ax.commands) + NeuronCommands(row, rng.source, old(rng.next), showBiases, radius, fontsize)
  {
    ghost var start := rng.next;
    ghost var drawn: seq<Command> := [];
    var j := 0;
    while j < |row|
      invariant 0 <= j <= |row|
      invariant ax.commands == old(ax.commands) + drawn
      invariant drawn == NeuronCommands(row[..j], rng.source, start, showBiases, radius, fontsize)
      invariant rng.next == start + BiasDraws(j, showBiases)
    {
      ghost var at := rng.next;
      DrawNeuron(ax, rng, row[j], showBiases, fontsize, radius);
      ghost var disc := DiscCommands(row[j], rng.source, at, showBiases, radius, fontsize);
      assert row[..j + 1] == row[..j] + [row[j]];
      NeuronCommandsSnoc(row[..j], row[j], rng.source, start, at, showBiases, radius, fontsize);
      AppendAssoc(old(ax.commands), drawn, disc);
      drawn := drawn + disc;
      j := j + 1;
    }
    assert row[..j] == row;
  }

  /** The neuron pass over the first `layers` rows of `positions`. */
  method DrawNeurons(ax: Surface, rng: Sampler, positions: seq<seq<Point>>, layers: nat,
                     showBiases: bool, fontsize: int, radius: real)
    requires rng.Valid()
    requires layers <= |positions|
    modifies ax, rng`next
    ensures rng.Valid()
    ensures ax.commands == old(ax.commands) +
      NeuronCommands(Neurons(positions[..layers]), rng.source, old(rng.next), showBiases, radius, fontsize)
    ensures rng.next == old(rng.next) + BiasDraws(|Neurons(positions[..layers])|, showBiases)
  {
    ghost var start := rng.next;
    ghost var drawn: seq<Command> := [];
    var i := 0;
    while i < layers
      invariant i <= layers
      invariant ax.commands == old(ax.commands) + drawn
      invariant drawn == NeuronCommands(Neurons(positions[..i]), rng.source, start, showBiases, radius, fontsize)
      invariant rng.next == start + BiasDraws(|Neurons(positions[..i])|, showBiases)
    {
      ghost var at := rng.next;
      DrawRow(ax, rng, positions[i], showBiases, fontsize, radius);
      ghost var row := NeuronCommands(positions[i], rng.source, at, showBiases, radius, fontsize);
      NeuronsStep(positions, i, rng.source, start, at, showBiases, radius, fontsize);
      AppendAssoc(old(ax.commands), drawn, row);
      drawn := drawn + row;
      i := i + 1;
    }
  }
}
