/** The ternary neural network diagram: a grid of qutrit neurons, one column
    per layer, connected all-to-all between neighbouring layers, coloured by
    a state that cycles with time and position. Time is local to the
    animation effect: it starts at zero every time the effect runs and
    advances by one tick per frame while the simulation runs. A tick is
    0.03 of the source's time unit. */
module NeuralNetworkDiagram {
  import opened Canvas

  /** The three props the app passes. */
  datatype Props = Props(isSimulating: bool, networkSize: int, entanglementDepth: int)

  /** The square canvas's side in pixels. */
  const Side: real := 600.0

  /** Input and output around the hidden layers. */
  function Layers(p: Props): int
  {
    p.entanglementDepth + 2
  }

  /** How many times a loop `for (k = 0; k < bound; k++)` runs. */
  function Count(bound: int): nat
  {
    if bound > 0 then bound else 0
  }

  /** The state of neuron `n` of layer `l` after `ticks` ticks: the floor of
      JavaScript's `(time * 10 + l + n) % 3` with `time = 0.03 * ticks`,
      the remainder of a non-negative number being its distance above the
      largest multiple of 3 below it. */
  function StateOf(ticks: nat, l: nat, n: nat): (s: int)
    ensures 0 <= s < 3
  {
    var x := 0.03 * ticks as real * 10.0 + (l + n) as real;
    (x - 3.0 * (x / 3.0).Floor as real).Floor
  }

  /** The state is an integer count of tenths of ticks: it steps up by one
      every 10/3 ticks, in exact arithmetic. */
  lemma StateCycles(ticks: nat, l: nat, n: nat)
    ensures StateOf(ticks, l, n) == ((3 * ticks) / 10 + l + n) % 3
  {
    var a := (3 * ticks) / 10;
    var frac := (3 * ticks - 10 * a) as real / 10.0;
    assert 0.0 <= frac < 1.0;
    var z := a + l + n;
    var x := 0.03 * ticks as real * 10.0 + (l + n) as real;
    assert x == z as real + frac;
    var q, r := z / 3, z % 3;
    assert z == 3 * q + r;
    assert q as real <= x / 3.0 < q as real + 1.0;
    assert (x / 3.0).Floor == q;
    assert x - 3.0 * q as real == r as real + frac;
    assert (r as real + frac).Floor == r;
  }

  /** At time zero, and so for as long as the diagram is idle, the state is
      `(l + n) % 3`. */
  lemma StateIdle(l: nat, n: nat)
    ensures StateOf(0, l, n) == (l + n) % 3
  {
    StateCycles(0, l, n);
  }

  /** Along a layer the state steps up by one from neuron to neuron. */
  lemma StateAlongLayer(ticks: nat, l: nat, n: nat)
    ensures StateOf(ticks, l, n + 1) == (StateOf(ticks, l, n) + 1) % 3
  {
    StateCycles(ticks, l, n);
    StateCycles(ticks, l, n + 1);
    var z := (3 * ticks) / 10 + l + n;
    DivModUnique(z + 1, 3, if z % 3 == 2 then z / 3 + 1 else z / 3, (z % 3 + 1) % 3);
  }

  /** Neuron `n` of the next layer is in the state of neuron `n + 1` of
      this one. */
  lemma StateAcrossLayers(ticks: nat, l: nat, n: nat)
    ensures StateOf(ticks, l + 1, n) == StateOf(ticks, l, n + 1)
  {
    StateCycles(ticks, l + 1, n);
    StateCycles(ticks, l, n + 1);
  }

  /** The colours come back every 10 ticks. */
  lemma StatePeriod(ticks: nat, l: nat, n: nat)
    ensures StateOf(ticks + 10, l, n) == StateOf(ticks, l, n)
  {
    StateCycles(ticks, l, n);
    StateCycles(ticks + 10, l, n);
    DivModUnique(3 * (ticks + 10), 10, (3 * ticks) / 10 + 3, (3 * ticks) % 10);
    var z := (3 * ticks) / 10 + l + n;
    DivModUnique(z + 3, 3, z / 3 + 1, z % 3);
  }

  /** The x of column `l` out of `layers`: `width / (layers + 1) * (l + 1)`. */
  function ColumnX(layers: int, l: nat): real
    requires l < layers
  {
    Side / (layers + 1) as real * (l + 1) as real
  }

  /** The y of row `n` out of `size`. */
  function RowY(size: int, n: nat): real
    requires n < size
  {
    Side / (size + 1) as real * (n + 1) as real
  }

  /** The columns of the layers lie strictly inside the canvas, left to right. */
  lemma {:induction false} ColumnsInside(layers: int, l: nat)
    requires l < layers
    ensures 0.0 < ColumnX(layers, l) < Side
    ensures l + 1 < layers ==> ColumnX(layers, l) < ColumnX(layers, l + 1)
  {
    var w := Side / (layers + 1) as real;
    assert w > 0.0;
    assert ColumnX(layers, l) == w * (l + 1) as real;
    assert w * (layers + 1) as real == Side;
    assert w * (l + 1) as real < w * (layers + 1) as real;
    if l + 1 < layers {
      assert ColumnX(layers, l + 1) == w * (l + 1) as real + w;
    }
  }

  /** A neuron as stored in `positions`. */
  datatype Neuron = Neuron(layer: nat, index: nat, x: real, y: real, state: int)

  function NeuronAt(p: Props, ticks: nat, l: nat, n: nat): Neuron
    requires l < Layers(p) && n < p.networkSize
  {
    Neuron(l, n, ColumnX(Layers(p), l), RowY(p.networkSize, n), StateOf(ticks, l, n))
  }

  /** The `positions` table: one row per layer, one neuron per index. */
  function Grid(p: Props, ticks: nat): seq<seq<Neuron>>
  {
    seq(Count(Layers(p)), l requires 0 <= l < Count(Layers(p)) =>
      seq(Count(p.networkSize), n requires 0 <= n < Count(p.networkSize) => NeuronAt(p, ticks, l, n)))
  }

  /** A line from neuron `from` of `layer` to neuron `to` of the next layer,
      with its activation: 0.3 when idle; while simulating it is a sine of
      time and indices, which is not modelled (`None`). */
  datatype Connection = Connection(layer: nat, from: nat, to: nat, activation: Option<real>)

  function Activation(p: Props): Option<real>
  {
    if p.isSimulating then None else Some(0.3)
  }

  /** The lines neuron `n` of layer `l` draws: one to each neuron of the
      next layer, none from the last layer. */
  function ConnRow(p: Props, l: nat, n: nat): seq<Connection>
  {
    if l < Layers(p) - 1 then
      seq(Count(p.networkSize), m requires 0 <= m < Count(p.networkSize) => Connection(l, n, m, Activation(p)))
    else []
  }

  /** The lines of layer `l`'s first `n` neurons, in drawing order. */
  function LayerConns(p: Props, l: nat, n: nat): seq<Connection>
  {
    if n == 0 then [] else LayerConns(p, l, n - 1) + ConnRow(p, l, n - 1)
  }

  /** The lines of the first `l` layers, in drawing order. */
  function ConnsBefore(p: Props, l: nat): seq<Connection>
  {
    if l == 0 then [] else ConnsBefore(p, l - 1) + LayerConns(p, l - 1, Count(p.networkSize))
  }

  lemma {:induction false} LayerConnsMembers(p: Props, l: nat, n: nat, c: Connection)
    ensures c in LayerConns(p, l, n) <==>
      c.layer == l && l < Layers(p) - 1 && c.from < n && c.to < Count(p.networkSize) && c.activation == Activation(p)
    ensures |LayerConns(p, l, n)| == if l < Layers(p) - 1 then n * Count(p.networkSize) else 0
  {
    if n > 0 {
      LayerConnsMembers(p, l, n - 1, c);
      if c in ConnRow(p, l, n - 1) {
        var m :| 0 <= m < |ConnRow(p, l, n - 1)| && ConnRow(p, l, n - 1)[m] == c;
      }
      if c.layer == l && l < Layers(p) - 1 && c.from == n - 1 && c.to < Count(p.networkSize) && c.activation == Activation(p) {
        assert ConnRow(p, l, n - 1)[c.to] == c;
      }
      assert (n - 1) * Count(p.networkSize) + Count(p.networkSize) == n * Count(p.networkSize);
    }
  }

  lemma {:induction false} ConnsBeforeMembers(p: Props, l: nat, c: Connection)
    ensures c in ConnsBefore(p, l) <==>
      c.layer < l && c.layer < Layers(p) - 1 && c.from < Count(p.networkSize) && c.to < Count(p.networkSize) &&
      c.activation == Activation(p)
  {
    if l > 0 {
      ConnsBeforeMembers(p, l - 1, c);
      LayerConnsMembers(p, l - 1, Count(p.networkSize), c);
    }
  }

  lemma {:induction false} ConnsBeforeCount(p: Props, l: nat)
    requires l <= Count(Layers(p))
    ensures |ConnsBefore(p, l)| == (if l < Count(Layers(p) - 1) then l else Count(Layers(p) - 1)) * (Count(p.networkSize) * Count(p.networkSize))
  {
    var nn := Count(p.networkSize) * Count(p.networkSize);
    if l > 0 {
      ConnsBeforeCount(p, l - 1);
      LayerConnsMembers(p, l - 1, Count(p.networkSize), Connection(0, 0, 0, None));
      if l - 1 < Layers(p) - 1 {
        assert (l - 1) * nn + nn == l * nn;
      }
    }
  }

  /** Every neuron of every layer but the last is joined to every neuron of
      the next layer, once: the lines are exactly the pairs of neighbouring
      layers, `(layers - 1) * size * size` of them, and all share one
      activation. */
  lemma Connections(p: Props, c: Connection)
    ensures c in ConnsBefore(p, Count(Layers(p))) <==>
      c.layer + 1 < Layers(p) && c.from < Count(p.networkSize) && c.to < Count(p.networkSize) &&
      c.activation == Activation(p)
    ensures |ConnsBefore(p, Count(Layers(p)))| == Count(Layers(p) - 1) * Count(p.networkSize) * Count(p.networkSize)
  {
    ConnsBeforeMembers(p, Count(Layers(p)), c);
    ConnsBeforeCount(p, Count(Layers(p)));
  }

  /** The lines of one neuron: when its layer is not the last, the loop
      over the next layer's neurons draws one line to each. */
  method ConnectNeuron(p: Props, l: nat, n: nat) returns (lines: seq<Connection>)
    ensures lines == ConnRow(p, l, n)
  {
    lines := [];
    if l < Layers(p) - 1 {
      var m := 0;
      while m < p.networkSize
        invariant m <= Count(p.networkSize)
        invariant lines == ConnRow(p, l, n)[..m]
      {
        assert ConnRow(p, l, n)[..m + 1] == ConnRow(p, l, n)[..m] + [Connection(l, n, m, Activation(p))];
        lines := lines + [Connection(l, n, m, if p.isSimulating then None else Some(0.3))];
        m := m + 1;
      }
      assert ConnRow(p, l, n)[..m] == ConnRow(p, l, n);
    }
  }

  /** One layer of the first pass: its row of the table and its lines. */
  method LayerPass(p: Props, ticks: nat, l: nat) returns (row: seq<Neuron>, lines: seq<Connection>)
    requires l < Layers(p)
    ensures row == Grid(p, ticks)[l]
    ensures lines == LayerConns(p, l, Count(p.networkSize))
  {
    row, lines := [], [];
    var n := 0;
    while n < p.networkSize
      invariant n <= Count(p.networkSize) && |row| == n
      invariant forall k :: 0 <= k < n ==> row[k] == NeuronAt(p, ticks, l, k)
      invariant lines == LayerConns(p, l, n)
    {
      row := row + [Neuron(l, n, ColumnX(Layers(p), l), RowY(p.networkSize, n), StateOf(ticks, l, n))];
      var out := ConnectNeuron(p, l, n);
      lines := lines + out;
      n := n + 1;
    }
  }

  /** The first pass: the `positions` table and the lines, filled by the
      nested loops over layers, neurons and next-layer neurons. */
  method NetworkPass(p: Props, ticks: nat) returns (positions: seq<seq<Neuron>>, conns: seq<Connection>)
    ensures positions == Grid(p, ticks)
    ensures conns == ConnsBefore(p, Count(Layers(p)))
  {
    positions, conns := [], [];
    var l := 0;
    while l < Layers(p)
      invariant l <= Count(Layers(p))
      invariant positions == Grid(p, ticks)[..l]
      invariant conns == ConnsBefore(p, l)
    {
      var row, lines := LayerPass(p, ticks, l);
      assert Grid(p, ticks)[..l + 1] == Grid(p, ticks)[..l] + [row];
      positions := positions + [row];
      conns := conns + lines;
      l := l + 1;
    }
    assert Grid(p, ticks)[..l] == Grid(p, ticks);
  }

  /** The fill colours of the three states and their glows. */
  const Colors: seq<string> := ["rgba(34, 211, 238, 0.8)", "rgba(168, 85, 247, 0.8)", "rgba(251, 146, 60, 0.8)"]
  const Glows: seq<string> := ["rgba(34, 211, 238, 0.4)", "rgba(168, 85, 247, 0.4)", "rgba(251, 146, 60, 0.4)"]

  /** Each state's glow is its core colour at half the alpha: cyan for 0,
      purple for 1 and orange for 2. */
  lemma GlowMatchesCore(s: nat)
    requires s < 3
    ensures Glows[s][..|Glows[s]| - 4] == Colors[s][..|Colors[s]| - 4]
    ensures Colors[s][|Colors[s]| - 4..] == "0.8)" && Glows[s][|Glows[s]| - 4..] == "0.4)"
  {
  }

  /** One neuron as drawn: glow colour, core colour and whether it has a
      pulsing ring (only while simulating). */
  datatype Dot = Dot(x: real, y: real, glow: string, core: string, ring: bool)

  function DotOf(nr: Neuron, isSimulating: bool): Dot
    requires 0 <= nr.state < 3
  {
    Dot(nr.x, nr.y, Glows[nr.state], Colors[nr.state], isSimulating)
  }

  predicate StatesInRange(positions: seq<seq<Neuron>>)
  {
    forall l, n :: 0 <= l < |positions| && 0 <= n < |positions[l]| ==> 0 <= positions[l][n].state < 3
  }

  /** Every neuron of the table has a state that indexes both colour lists. */
  lemma GridStatesInRange(p: Props, ticks: nat)
    ensures StatesInRange(Grid(p, ticks))
  {
  }

  /** The second pass: every stored neuron is drawn from its own entry of
      the table, in the colours of its state. */
  method NeuronPass(positions: seq<seq<Neuron>>, isSimulating: bool) returns (dots: seq<seq<Dot>>)
    requires StatesInRange(positions)
    ensures |dots| == |positions|
    ensures forall l :: 0 <= l < |dots| ==> |dots[l]| == |positions[l]|
    ensures forall l, n :: 0 <= l < |dots| && 0 <= n < |dots[l]| ==> dots[l][n] == DotOf(positions[l][n], isSimulating)
  {
    dots := [];
    var l := 0;
    while l < |positions|
      invariant l <= |positions| && |dots| == l
      invariant forall k :: 0 <= k < l ==> |dots[k]| == |positions[k]|
      invariant forall k, n :: 0 <= k < l && 0 <= n < |dots[k]| ==> dots[k][n] == DotOf(positions[k][n], isSimulating)
    {
      var row: seq<Dot> := [];
      var n := 0;
      while n < |positions[l]|
        invariant n <= |positions[l]| && |row| == n
        invariant forall k :: 0 <= k < n ==> row[k] == DotOf(positions[l][k], isSimulating)
      {
        var nr := positions[l][n];
        row := row + [Dot(nr.x, nr.y, Glows[nr.state], Colors[nr.state], isSimulating)];
        n := n + 1;
      }
      dots := dots + [row];
      l := l + 1;
    }
  }

  datatype Label = Input | Hidden(k: nat) | Output

  /** The label under column `l`: Input first, Output last, Hidden l between. */
  function LabelOf(layers: int, l: nat): Label
  {
    if l == 0 then Input else if l == layers - 1 then Output else Hidden(l)
  }

  /** The third pass: one label per layer, under its column. */
  method LabelPass(layers: int) returns (labels: seq<(real, Label)>)
    ensures |labels| == Count(layers)
    ensures forall l :: 0 <= l < |labels| ==> labels[l] == (ColumnX(layers, l), LabelOf(layers, l))
  {
    labels := [];
    var l := 0;
    while l < layers
      invariant l <= Count(layers) && |labels| == l
      invariant forall k :: 0 <= k < l ==> labels[k] == (ColumnX(layers, k), LabelOf(layers, k))
    {
      var name := if l == 0 then Input else if l == layers - 1 then Output else Hidden(l);
      labels := labels + [(ColumnX(layers, l), name)];
      l := l + 1;
    }
  }

  /** With at least one hidden layer slot, the labels read Input, Hidden 1
      up to Hidden `depth`, Output: exactly one input and one output, and as
      many hidden layers as the entanglement depth. */
  lemma LabelsInOrder(p: Props, l: nat)
    requires p.entanglementDepth >= 0 && l < Layers(p)
    ensures LabelOf(Layers(p), l) == Input <==> l == 0
    ensures LabelOf(Layers(p), l) == Output <==> l == Layers(p) - 1
    ensures LabelOf(Layers(p), l).Hidden? <==> 1 <= l <= p.entanglementDepth
    ensures LabelOf(Layers(p), l).Hidden? ==> LabelOf(Layers(p), l).k == l
  {
  }

  /** The caption under the canvas: neurons per layer and total layers. */
  function Caption(p: Props): (int, int)
  {
    (p.networkSize, p.entanglementDepth + 2)
  }

  /** The caption's figures are the grid's: each row of the table has that
      many neurons, and there are that many rows and labels. */
  lemma CaptionMatchesGrid(p: Props, ticks: nat)
    requires p.networkSize >= 0 && p.entanglementDepth >= 0
    ensures |Grid(p, ticks)| == Caption(p).1
    ensures forall l :: 0 <= l < |Grid(p, ticks)| ==> |Grid(p, ticks)[l]| == Caption(p).0
  {
  }

  /** One drawn frame. */
  datatype DiagramFrame = DiagramFrame(connections: seq<Connection>, dots: seq<seq<Dot>>, labels: seq<(real, Label)>)

  function DotsOf(positions: seq<seq<Neuron>>, isSimulating: bool): seq<seq<Dot>>
    requires StatesInRange(positions)
  {
    seq(|positions|, l requires 0 <= l < |positions| =>
      seq(|positions[l]|, n requires 0 <= n < |positions[l]| => DotOf(positions[l][n], isSimulating)))
  }

  /** The frame drawn at `ticks`. */
  function FrameAt(p: Props, ticks: nat): DiagramFrame
  {
    GridStatesInRange(p, ticks);
    DiagramFrame(ConnsBefore(p, Count(Layers(p))), DotsOf(Grid(p, ticks), p.isSimulating),
                 seq(Count(Layers(p)), l requires 0 <= l < Count(Layers(p)) => (ColumnX(Layers(p), l), LabelOf(Layers(p), l))))
  }

  class Diagram {
    /** The effect's local clock, in ticks. */
    var ticks: nat
    /** Whether an animation callback of the current effect is pending. */
    var scheduled: bool
    /** The props the current effect's draw was created with. */
    var props: Props

    constructor Mount(p: Props)
      ensures ticks == 0 && !scheduled && props == p
    {
      ticks := 0;
      scheduled := false;
      props := p;
    }

    /** `draw`: the three passes at the current time, then one tick more
        while simulating. */
    method Draw() returns (f: DiagramFrame)
      modifies this`ticks
      ensures f == FrameAt(props, old(ticks))
      ensures ticks == old(ticks) + (if props.isSimulating then 1 else 0)
    {
      var positions, conns := NetworkPass(props, ticks);
      var dots := NeuronPass(positions, props.isSimulating);
      var labels := LabelPass(Layers(props));
      forall l | 0 <= l < |dots| ensures dots[l] == DotsOf(positions, props.isSimulating)[l] {
      }
      assert dots == DotsOf(positions, props.isSimulating);
      f := DiagramFrame(conns, dots, labels);
      if props.isSimulating {
        ticks := ticks + 1;
      }
    }

    /** The effect runs for `p`: without a canvas or context it returns at
        once; otherwise its clock starts at zero, the first frame is drawn
        straight away and the next is scheduled. */
    method RunEffect(p: Props, canvasPresent: bool, hasContext: bool) returns (f: Option<DiagramFrame>)
      requires !scheduled
      modifies this
      ensures !(canvasPresent && hasContext) ==>
        f == None && ticks == old(ticks) && !scheduled && props == old(props)
      ensures canvasPresent && hasContext ==>
        props == p && scheduled && f == Some(FrameAt(p, 0)) &&
        ticks == (if p.isSimulating then 1 else 0)
    {
      if !canvasPresent || !hasContext {
        return None;
      }
      props := p;
      ticks := 0;
      var frame := Draw();
      scheduled := true;
      f := Some(frame);
    }

    /** The pending animation callback fires and draws the next frame. */
    method Fire() returns (f: DiagramFrame)
      requires scheduled
      modifies this`ticks
      ensures f == FrameAt(props, old(ticks))
      ensures ticks == old(ticks) + (if props.isSimulating then 1 else 0)
    {
      f := Draw();
    }

    /** The cleanup cancels the pending callback. */
    method Cleanup()
      modifies this`scheduled
      ensures !scheduled
    {
      scheduled := false;
    }
  }

  /** Idle, the picture stands still; simulating, frame `k` shows time `k`;
      and any prop change, even one that only stops the simulation, restarts
      the clock, so the picture jumps back to time zero. */
  method ClockIsEffectLocal(p: Props) returns (idle: DiagramFrame, running: DiagramFrame, restarted: Option<DiagramFrame>)
    ensures idle == FrameAt(p.(isSimulating := false), 0)
    ensures running == FrameAt(p.(isSimulating := true), 2)
    ensures restarted == Some(FrameAt(p.(isSimulating := false), 0))
  {
    var d := new Diagram.Mount(p);
    var off := p.(isSimulating := false);
    var on := p.(isSimulating := true);
    var first := d.RunEffect(off, true, true);
    idle := d.Fire();
    d.Cleanup();
    first := d.RunEffect(on, true, true);
    var second := d.Fire();
    running := d.Fire();
    d.Cleanup();
    restarted := d.RunEffect(off, true, true);
  }
}
