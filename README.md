# Neural network diagram script, modelled in Dafny

`neural-net.py` draws a dense feed-forward network and prints its parameter
count. The user gives one neuron count per layer, for example `4 8 8 8 4`.
This project models the script's logic as imperative Dafny:

- **Layout engine** (`Layout`, over `Topology`). It builds one row of
  positions per layer. Layer `i` sits at `x = i * spacing`. Neuron `j` sits at
  `y = j + (max - n) / 2`, which centres every layer against the widest one.
  The rows are built by appending in two nested loops, as the script does.
- **Parameter counter** (`Parameters`). It is the accumulator loop that adds
  `prev * curr + curr` for every pair of adjacent layers. It is proved equal to
  a recursive sum and to the closed form "all weights plus every bias outside
  the input layer".
- **Render passes** (`ConnectionPass`, `NeuronPass`, over `Drawing`). They draw
  on a recording surface, a class whose `commands` sequence grows with every
  `add_patch` and `annotate`. The random generator is a `Sampler` object. It
  holds a fixed stream of unit draws in [0, 1) and a cursor. A call
  `uniform(low, high)` takes the next draw `u` and returns
  `low + (high - low) * u`.
  - Each pass is proved to append exactly the commands of a specification
    function: a line per connection, in layer, source, target order, and a
    disc per neuron. An optional label follows each, and each pass consumes
    the draws in program order.
  - Lemmas then give:
    - the number and order of lines and discs;
    - that every endpoint and centre is a layout position;
    - that each toggle adds one label per item or nothing;
    - where labels sit, and the ranges of widths, weights and biases.
- **The run** (`Network`). It lays out, draws connections, draws neurons and
  counts parameters. Lemmas relate the whole diagram to the topology:
  - Σ wᵢ·wᵢ₊₁ lines and Σ wᵢ discs;
  - the same geometry whatever the toggles and the draws;
  - for non-negative widths, a parameter count equal to lines + discs − the
    first layer's width.

## Notes on the script's behaviour

- **Usage example.** The parameter count of `4 8 8 8 4` is 220:
  40 + 72 + 72 + 36.
- **Input checks.** Widths and spacing are parsed with `type=int` and nothing
  further is checked. So a negative width is accepted and gives an empty row
  (`range(n)` is empty). Its raw value still enters the centring offset and
  the parameter count, and a zero or negative spacing is accepted.
- **Empty topology.** It is refused by the argument parser (`nargs="+"`), and
  `max` needs a non-empty list. This is the one precondition taken from the
  script, on the layout and on `Run`; `Run` also requires the sampler's
  draws to lie in [0, 1), which is what a uniform generator supplies.

## Model

| member | source | states |
|---|---|---|
| `Topology.Max` | neural-net.py:88 | the largest width is one of the widths and no width exceeds it |
| `Layout.CreatePositions` | neural-net.py:86-96 | one row per layer; row i holds max(0, t[i]) points; point j of row i is (i·spacing, j + (max − t[i]) / 2); the rows equal the layout specification `LayoutOf` |
| `Layout.ColumnsAreSpaced` | neural-net.py:94 | every neuron of layer i has x = i·spacing, so any neuron of layer i + 1 is exactly `spacing` to the right of any neuron of layer i |
| `Layout.WidestLayerSpansFromZero` | neural-net.py:88-94 | a widest layer is not shifted: its neurons sit at y = 0 … max − 1 |
| `Layout.LayersAreCentred` | neural-net.py:88-94 | in every layer the j-th neuron from the top and the j-th from the bottom have y-coordinates summing to max − 1, so each layer is centred on the widest |
| `Layout.WithinWidestSpan` | neural-net.py:88-94 | every neuron lies between y = 0 and y = max − 1 |
| `Parameters.CalculateParameters` | neural-net.py:39-43 | the accumulator loop returns Σ over adjacent pairs of prev·curr + curr, which equals all pairwise products plus all widths minus the first |
| `Parameters.ParamsAreWeightsPlusBiases` | neural-net.py:41-42 | the count is the weights Σ tᵢ·tᵢ₊₁ plus one bias per neuron outside the input layer |
| `Parameters.ParamsNonNegative` | neural-net.py:39-43 | with no negative width the count is never negative |
| `Parameters.SingleLayerHasNone` | neural-net.py:41 | a one-layer network has no parameters (the loop body never runs) |
| `Parameters.UsageExampleCount` | neural-net.py:109 | the usage example `4 8 8 8 4` has 220 parameters |
| `Drawing.ScaleRange` | neural-net.py:12 | `uniform(low, high)` of a unit draw in [0, 1) lies in [low, high) |
| `Drawing.LerpOnSegment` | neural-net.py:24-25 | the point at fraction f in [0, 1] from one end lies between the ends in both coordinates |
| `Drawing.Surface.AddPatch` | neural-net.py:20 | adding a patch appends exactly that command |
| `Drawing.Surface.Annotate` | neural-net.py:26 | annotating appends exactly that text command |
| `Drawing.Sampler.Uniform` | neural-net.py:12 | one call consumes one unit draw and returns low + (high − low)·u, inside [low, high) when low < high |
| `ConnectionPass.ConnectionCount` | neural-net.py:9-11 | the edge list has, summed over adjacent rows, (size of row i) · (size of row i + 1) edges |
| `ConnectionPass.EdgeIndexFormula` | neural-net.py:9-11 | edge (i, j, k) is drawn after all edges of earlier layer pairs and j full fans of layer i, i.e. at Σ_{l<i} wₗ·wₗ₊₁ + j·w_{i+1} + k |
| `ConnectionPass.ConnectionAt` | neural-net.py:9-13 | every neuron j of layer i is joined to every neuron k of layer i + 1, at index EdgeIndex(i, j, k) |
| `ConnectionPass.EdgeOf` | neural-net.py:9-13 | conversely, every drawn edge joins some neuron of a layer to some neuron of the next, at that index |
| `ConnectionPass.ConnectionOrder` | neural-net.py:9-11 | edges are ordered by layer, then source, then target |
| `ConnectionPass.EdgeCommandsShape` | neural-net.py:12-26 | one edge draws a line between its endpoints of width in [0.3, 1.5); with weights on, also a label of value width / 1.5 in [0.2, 1) at a fraction in [0.3, 0.7) along the line, lying between the endpoints |
| `ConnectionPass.ConnectionCommandsAt` | neural-net.py:12-26 | edge c's commands form the block after those of the c edges before it and use the unit draws after theirs |
| `ConnectionPass.ConnectionShapes` | neural-net.py:13-20 | the geometry drawn is one segment per edge, in order, whatever the draws and the weight toggle |
| `ConnectionPass.ConnectionAnnotations` | neural-net.py:21-26 | one weight label per edge when weights are shown, none otherwise |
| `ConnectionPass.DrawEdge` | neural-net.py:12-26 | the innermost loop body appends the edge's commands and consumes one draw, or two with weights shown |
| `ConnectionPass.DrawFan` | neural-net.py:11-26 | the innermost loop appends the commands of the fan from one source to every target |
| `ConnectionPass.DrawLayerPairs` | neural-net.py:10-26 | the middle loop appends the commands of all edges between two adjacent layers |
| `ConnectionPass.DrawConnections` | neural-net.py:8-26 | the whole pass appends the commands of `Connections` of the first `layers` rows and consumes exactly their draws |
| `NeuronPass.NeuronCount` | neural-net.py:30-31 | the pass visits as many neurons as the rows hold together |
| `NeuronPass.NeuronAt` | neural-net.py:30-32 | every position is visited, at index (neurons of earlier layers) + j |
| `NeuronPass.NeuronOf` | neural-net.py:30-32 | conversely, every visited neuron is some position j of some layer i |
| `NeuronPass.NeuronOrder` | neural-net.py:30-31 | neurons are visited layer by layer, and in row order within a layer |
| `NeuronPass.DiscCommandsShape` | neural-net.py:32-36 | one neuron draws a disc of the given radius at its position; with biases on, also a label of value in [0, 1) at (x, y − 0.4) |
| `NeuronPass.NeuronCommandsAt` | neural-net.py:32-36 | neuron c's commands form the block after those of the c neurons before it and use the draw after theirs |
| `NeuronPass.NeuronShapes` | neural-net.py:32-33 | the geometry drawn is one disc per neuron, in order, whatever the draws and the bias toggle |
| `NeuronPass.NeuronAnnotations` | neural-net.py:34-36 | one bias label per neuron when biases are shown, none otherwise |
| `NeuronPass.DrawNeuron` | neural-net.py:32-36 | the inner loop body appends the neuron's commands and consumes a draw only when biases are shown |
| `NeuronPass.DrawRow` | neural-net.py:31-36 | the inner loop appends the commands of one layer's neurons |
| `NeuronPass.DrawNeurons` | neural-net.py:29-36 | the whole pass appends the commands of `Neurons` of the first `layers` rows and consumes exactly their draws |
| `Network.Run` | neural-net.py:46-80 | the run returns the layout, a fresh surface holding the connection pass followed by the neuron pass (which draws after the connections), and the parameter count |
| `Network.LineCount` | neural-net.py:9-11 | the diagram of topology t has Σ wᵢ·wᵢ₊₁ lines, wᵢ = max(0, tᵢ) |
| `Network.CircleCount` | neural-net.py:30-31 | the diagram of topology t has Σ wᵢ discs |
| `Network.ParametersMatchDiagram` | neural-net.py:39-43 | for non-negative widths, the parameter count is lines + discs − t[0] |
| `Network.DiagramShapes` | neural-net.py:66-68 | the diagram's geometry is a segment per connection in order, then a disc per neuron in order |
| `Network.ShapesIndependentOfToggles` | neural-net.py:66-68 | toggles, draws, opacity and font size never change the geometry drawn |
| `Network.LabelCount` | neural-net.py:21-36 | the diagram has Σ wᵢ·wᵢ₊₁ weight labels if weights are shown, plus Σ wᵢ bias labels if biases are shown |
| `Network.TwoByThreeExample` | neural-net.py:9-36 | layers of 2 and 3 neurons give 6 lines and 5 discs |
| `Network.EmptyMiddleLayerExample` | neural-net.py:89-95 | a zero-width middle layer leaves no connections and keeps the other 5 discs |

## Left out

- Styling of the drawn objects (neural-net.py:13-19, 32): arrow and
  connection style, colours, `mutation_scale`, the discs' fixed opacity and
  text alignment. A line records its endpoints, width and opacity; a disc
  records its centre and radius; a label records its value, point and font
  size.
- `ConnectionPass.DrawEdge`: the weight label carries width / 1.5 unrounded.
  `np.round(…, 2)` and the `w:` f-string formatting are floating-point
  presentation.
- `NeuronPass.DrawNeuron`: the bias label carries the unrounded draw, for
  the same reason (`np.round` and the `b:` prefix).
- Line opacity outside [0, 1]: matplotlib refuses such an `alpha` when the
  first arrow is built (neural-net.py:13-17). `DrawEdge` records whatever
  opacity it is given, so this error path is not modelled.
- Floating point: coordinates, widths and draws are exact reals. The sampler
  cannot return exactly `high` through rounding.
- The generator itself. `np.random.uniform` is the `Sampler`: a fixed
  stream of unit draws in [0, 1) and a cursor, shared by both passes in call
  order. How the stream is produced (seed, algorithm) is not modelled.
- `create_plot` (neural-net.py:99-104). It only sets axis limits and
  transparency on a library figure.
- Display and export (neural-net.py:71-82): `axis("off")`, `tight_layout`,
  `set_aspect`, `savefig`, `plt.show`, and the `print` of the count. `Run`
  returns the count instead of printing it.
- Argument parsing (neural-net.py:107-120). Options become `Config`, the
  widths a `seq<int>`, and `nargs="+"` the precondition `|t| > 0`.
- The module-level globals (neural-net.py:47-49, 62) are passed as
  parameters: the layer count `layers`, the line opacity and the disc
  radius. The passes require `layers <= |positions|`, which holds in the
  script since `layers` is the length of the topology.
- Each nested loop of the two passes is modelled as its own method:
  `DrawConnections` → `DrawLayerPairs` → `DrawFan` → `DrawEdge`, and
  `DrawNeurons` → `DrawRow` → `DrawNeuron`. They keep the loop order and the
  order of effects of the single functions in the script.
