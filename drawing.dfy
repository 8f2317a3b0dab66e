/** The drawing surface and the random source the renderer is given.

    The surface records what the renderer adds to the axes: a straight
    connection patch, a neuron disc or a text annotation. Styling that never
    varies (colours, arrow style, alignment) is not recorded. The random
    source stands for the process-wide uniform generator. */
module Drawing {
  import opened Layout

  /** Text of an annotation: "w:<value>" on a connection, "b:<value>" on a
      neuron. The value is kept unrounded. */
  datatype Label = Weight(value: real) | Bias(value: real)

  datatype Command =
    | Line(from: Point, to: Point, width: real, alpha: real)
    | Circle(center: Point, radius: real)
    | Text(caption: Label, at: Point, size: int)

  /** What a command puts on the canvas, without its style or randomness. */
  datatype Shape = Segment(from: Point, to: Point) | Disc(center: Point, radius: real)

  /** The point at fraction f along the segment from p to q. */
  function Lerp(p: Point, q: Point, f: real): Point
  {
    Point(p.x + (q.x - p.x) * f, p.y + (q.y - p.y) * f)
  }

  predicate Between(a: real, b: real, v: real)
  {
    (a <= v <= b) || (b <= v <= a)
  }

  /** A point strictly inside the segment lies between its ends in both
      coordinates. */
  lemma LerpOnSegment(p: Point, q: Point, f: real)
    requires 0.0 <= f <= 1.0
    ensures Between(p.x, q.x, Lerp(p, q, f).x)
    ensures Between(p.y, q.y, Lerp(p, q, f).y)
  {
    LerpBetween(p.x, q.x, f);
    LerpBetween(p.y, q.y, f);
  }

  lemma LerpBetween(a: real, b: real, f: real)
    requires 0.0 <= f <= 1.0
    ensures Between(a, b, a + (b - a) * f)
  {
    var d := if a <= b then b - a else a - b;
    ProductNonNegative(d, f);
    assert d - d * f == d * (1.0 - f);
    ProductNonNegative(d, 1.0 - f);
  }

  /** uniform(low, high) turns a unit draw u in [0, 1) into low + (high - low) * u. */
  function Scale(low: real, high: real, u: real): real
  {
    low + (high - low) * u
  }

  lemma ScaleRange(low: real, high: real, u: real)
    requires low < high && 0.0 <= u < 1.0
    ensures low <= Scale(low, high, u) < high
  {
    ProductNonNegative(high - low, u);
    assert (high - low) - (high - low) * u == (high - low) * (1.0 - u);
    ProductPositive(high - low, 1.0 - u);
    assert (high - low) * u < high - low;
  }

  lemma ProductNonNegative(c: real, u: real)
    requires c >= 0.0 && u >= 0.0
    ensures c * u >= 0.0
  {
  }

  lemma ProductPositive(c: real, u: real)
    requires c > 0.0 && u > 0.0
    ensures c * u > 0.0
  {
  }

  /** The geometry of a command list: its patches in order, without style
      and without annotations. */
  function Shapes(cmds: seq<Command>): seq<Shape>
  {
    if |cmds| == 0 then []
    else
      var last := cmds[|cmds| - 1];
      Shapes(cmds[..|cmds| - 1]) +
        match last
        case Line(p, q, _, _) => [Segment(p, q)]
        case Circle(c, r) => [Disc(c, r)]
        case Text(_, _, _) => []
  }

  /** The annotations of a command list, in order. */
  function Annotations(cmds: seq<Command>): seq<Command>
  {
    if |cmds| == 0 then []
    else Annotations(cmds[..|cmds| - 1]) + if cmds[|cmds| - 1].Text? then [cmds[|cmds| - 1]] else []
  }

  lemma {:induction false} ShapesAppend(a: seq<Command>, b: seq<Command>)
    ensures Shapes(a + b) == Shapes(a) + Shapes(b)
  {
    if |b| > 0 {
      assert (a + b)[..|a + b| - 1] == a + b[..|b| - 1];
      ShapesAppend(a, b[..|b| - 1]);
    } else {
      assert a + b == a;
    }
  }

  lemma {:induction false} AnnotationsAppend(a: seq<Command>, b: seq<Command>)
    ensures Annotations(a + b) == Annotations(a) + Annotations(b)
  {
    if |b| > 0 {
      assert (a + b)[..|a + b| - 1] == a + b[..|b| - 1];
      AnnotationsAppend(a, b[..|b| - 1]);
    } else {
      assert a + b == a;
    }
  }

  lemma AppendAssoc(a: seq<Command>, b: seq<Command>, c: seq<Command>)
    ensures (a + b) + c == a + (b + c)
  {
  }

  /** The axes the diagram is drawn on, as the list of commands added so far. */
  class Surface {
    var commands: seq<Command>

    constructor ()
      ensures commands == []
    {
      commands := [];
    }

    /** Adds a patch (a connection or a neuron disc). */
    method AddPatch(c: Command)
      requires !c.Text?
      modifies this
      ensures commands == old(commands) + [c]
    {
      commands := commands + [c];
    }

    /** Adds a text annotation centred at `at`. */
    method Annotate(caption: Label, at: Point, size: int)
      modifies this
      ensures commands == old(commands) + [Text(caption, at, size)]
    {
      commands := commands + [Text(caption, at, size)];
    }
  }

  /** The uniform random generator: an endless stream of unit draws in
      [0, 1) and the index of the next one to be taken. */
  class Sampler {
    const source: nat -> real
    var next: nat

    ghost predicate Valid()
      reads this
    {
      forall n: nat :: 0.0 <= source(n) < 1.0
    }

    constructor (source: nat -> real)
      requires forall n: nat :: 0.0 <= source(n) < 1.0
      ensures Valid() && this.source == source && next == 0
    {
      this.source := source;
      next := 0;
    }

    /** One draw from [low, high): consumes the next unit draw. */
    method Uniform(low: real, high: real) returns (r: real)
      requires Valid()
      modifies this`next
      ensures next == old(next) + 1
      ensures r == Scale(low, high, source(old(next)))
      ensures low < high ==> low <= r < high
    {
      r := Scale(low, high, source(next));
      if low < high {
        ScaleRange(low, high, source(next));
      }
      next := next + 1;
    }
  }
}
