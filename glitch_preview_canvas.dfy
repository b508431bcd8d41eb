/** The React preview canvas of the control panel. A frame counter kept in a
    ref survives re-renders; an effect that re-runs whenever a prop changes
    draws one frame at once and then one per animation callback, and
    cancels the pending callback when it is cleaned up. Every frame is
    computed from the props and the frame number alone. */
module GlitchPreviewCanvas {
  import opened Canvas
  import opened GlitchTypes

  /** The five props the panel passes down. */
  datatype Props = Props(
    feedbackLoop: bool,
    lucidity: real,
    fractalizationDepth: int,
    colorPhase: int,
    asciiMode: AsciiMode)

  /** The canvas element's fixed size. */
  const Width: nat := 280
  const Height: nat := 200

  /** One step of a path: move to, or draw a line to, a vertex of a regular
      polygon, vertex `j` lying `j / sides` of a turn round it. */
  datatype PathOp = MoveTo(vertex: nat) | LineTo(vertex: nat)

  /** The path of a polygon with `sides` sides: a move to vertex 0, then a
      line to each of the vertices 1 to `sides`. */
  function Outline(sides: nat): seq<PathOp>
  {
    seq(sides + 1, j requires 0 <= j <= sides => if j == 0 then MoveTo(0) else LineTo(j))
  }

  function CountMoves(path: seq<PathOp>): nat
  {
    if path == [] then 0 else CountMoves(path[..|path| - 1]) + (if path[|path| - 1].MoveTo? then 1 else 0)
  }

  /** A polygon path is one stroke: it starts with the only move, visits
      the vertices in order, and its last line goes to vertex `sides`, a
      full turn round, where the first vertex lies, so the outline closes. */
  lemma {:induction false} OutlineIsOneStroke(sides: nat)
    ensures |Outline(sides)| == sides + 1
    ensures Outline(sides)[0] == MoveTo(0)
    ensures forall j :: 0 <= j <= sides ==> Outline(sides)[j].vertex == j
    ensures CountMoves(Outline(sides)) == 1
    ensures Outline(sides)[sides].vertex == sides
  {
    MovesInPrefix(Outline(sides), sides + 1);
    assert Outline(sides)[..sides + 1] == Outline(sides);
  }

  lemma {:induction false} MovesInPrefix(path: seq<PathOp>, n: nat)
    requires 1 <= n <= |path| && path[0].MoveTo?
    requires forall j :: 1 <= j < |path| ==> path[j].LineTo?
    ensures CountMoves(path[..n]) == 1
  {
    if n > 1 {
      MovesInPrefix(path, n - 1);
      assert path[..n][..n - 1] == path[..n - 1];
    } else {
      assert path[..1][..0] == [];
    }
  }

  /** The polygon path with its loop over the vertices: a move for the first, a line for the others. */
  method PolygonPath(sides: nat) returns (path: seq<PathOp>)
    ensures path == Outline(sides)
  {
    path := [];
    var j := 0;
    while j <= sides
      invariant j <= sides + 1
      invariant path == Outline(sides)[..j]
    {
      if j == 0 {
        path := path + [MoveTo(0)];
      } else {
        path := path + [LineTo(j)];
      }
      assert Outline(sides)[..j + 1] == Outline(sides)[..j] + [Outline(sides)[j]];
      j := j + 1;
    }
  }

  /** One hexagon layer as stroked: radius, rotation, scale, stroke hue and
      alpha, the amplitude of its wobble, and its path. */
  datatype HexLayer = HexLayer(radius: int, rotation: real, scale: real, hue: int, alpha: real, distortion: real, path: seq<PathOp>)

  /** Layer `i`'s rotation at frame `frame`: a hundredth of a radian per
      frame times `i + 1` times the spin, computed afresh from the frame
      number and never accumulated. */
  function Rotation(frame: int, i: int, feedbackLoop: bool): real
  {
    frame as real * ((i + 1) as real / 100.0) * Spin(feedbackLoop)
  }

  /** The wobble amplitude: `(1 - stability) * 20`, and none without feedback. */
  function Distortion(p: Props): real
  {
    if p.feedbackLoop then (1.0 - p.lucidity) * 20.0 else 0.0
  }

  /** Layer `i` of frame `frame`. */
  function LayerOf(p: Props, frame: int, i: nat): HexLayer
  {
    HexLayer(40 + i * 10, Rotation(frame, i, p.feedbackLoop), 1.0 - i as real / 10.0,
             LayerHue(BaseHue(p.feedbackLoop, p.colorPhase), i), 0.3 + p.lucidity * 0.4,
             Distortion(p), Outline(6))
  }

  /** The ASCII overlay: none when off, a 10-pixel grid at alpha 0.3 for
      LOW and a 5-pixel grid at alpha 0.6 for HIGH. */
  function AsciiOf(mode: AsciiMode): Option<Overlay>
  {
    if mode == Off then None
    else
      var step := if mode == Low then 10 else 5;
      Some(Overlay(step, Rows(StepsFrom(0, step, Height), StepsFrom(0, step, Width)),
                   if mode == Low then 0.3 else 0.6))
  }

  /** One frame as draw commands: its number, the fade alpha, the hexagon
      layers, the waveform's hue, alpha and columns, the ASCII overlay, and
      whether a band is displaced. */
  datatype PreviewFrame = PreviewFrame(
    frame: int,
    fadeAlpha: real,
    layers: seq<HexLayer>,
    waveHue: int,
    waveAlpha: real,
    waveColumns: seq<int>,
    ascii: Option<Overlay>,
    glitch: bool)

  /** Frame number `frame` for the props `p`; `glitchRoll` is whether the
      random draw for a displaced band exceeded 0.85. */
  function FrameOf(p: Props, frame: int, glitchRoll: bool): PreviewFrame
  {
    PreviewFrame(
      frame,
      if p.feedbackLoop then 0.5 else 0.2,
      seq(Iterations(p.fractalizationDepth), i requires 0 <= i < Iterations(p.fractalizationDepth) => LayerOf(p, frame, i)),
      BaseHue(p.feedbackLoop, p.colorPhase),
      p.lucidity * 0.8,
      StepsFrom(0, 3, Width),
      AsciiOf(p.asciiMode),
      p.feedbackLoop && glitchRoll)
  }

  /** A frame draws one hexagon per unit of depth, each 10 pixels wider and
      a tenth smaller in scale than the one before, in the shared layer hues. */
  lemma FrameLayers(p: Props, frame: int, glitchRoll: bool)
    ensures |FrameOf(p, frame, glitchRoll).layers| == Iterations(p.fractalizationDepth)
    ensures forall i :: 0 <= i < |FrameOf(p, frame, glitchRoll).layers| ==>
      FrameOf(p, frame, glitchRoll).layers[i].radius == 40 + 10 * i &&
      FrameOf(p, frame, glitchRoll).layers[i].scale == 1.0 - i as real / 10.0 &&
      FrameOf(p, frame, glitchRoll).layers[i].hue == LayerHue(BaseHue(p.feedbackLoop, p.colorPhase), i) &&
      FrameOf(p, frame, glitchRoll).layers[i].rotation == Rotation(frame, i, p.feedbackLoop)
  {
  }

  /** The waveform is sampled at every third pixel across the canvas. */
  lemma FrameWave(p: Props, frame: int, glitchRoll: bool, x: int)
    ensures x in FrameOf(p, frame, glitchRoll).waveColumns <==> 0 <= x < Width && x % 3 == 0
  {
    StepsFromMembers(0, 3, Width, x);
  }

  /** The overlay is there exactly when the mode is not OFF, and its
      candidate cells are exactly the grid points of the mode's step. */
  lemma FrameAscii(p: Props, frame: int, glitchRoll: bool, c: Cell)
    ensures FrameOf(p, frame, glitchRoll).ascii.Some? <==> p.asciiMode != Off
    ensures FrameOf(p, frame, glitchRoll).ascii.Some? ==>
      var o := FrameOf(p, frame, glitchRoll).ascii.value;
      o.step == (if p.asciiMode == Low then 10 else 5) &&
      (c in o.cells <==> 0 <= c.x < Width && c.x % o.step == 0 && 0 <= c.y < Height && c.y % o.step == 0)
  {
    if p.asciiMode == Low {
      GridMembers(10, Width, Height, c);
    } else if p.asciiMode == High {
      GridMembers(5, Width, Height, c);
    }
  }

  /** Without feedback nothing wobbles and no band is displaced. */
  lemma FrameCalm(p: Props, frame: int, glitchRoll: bool)
    requires !p.feedbackLoop
    ensures !FrameOf(p, frame, glitchRoll).glitch
    ensures forall i :: 0 <= i < |FrameOf(p, frame, glitchRoll).layers| ==> FrameOf(p, frame, glitchRoll).layers[i].distortion == 0.0
  {
  }

  /** Each layer turns by the same amount on every frame, `i + 1`
      hundredths of a radian times the spin, twice as fast with feedback. */
  lemma {:induction false} RotationRate(frame: int, i: nat, feedbackLoop: bool)
    ensures Rotation(frame + 1, i, feedbackLoop) - Rotation(frame, i, feedbackLoop) == (i + 1) as real / 100.0 * Spin(feedbackLoop)
    ensures Rotation(0, i, feedbackLoop) == 0.0
    ensures Rotation(frame, i, true) == 2.0 * Rotation(frame, i, false)
  {
    var r := (i + 1) as real / 100.0;
    assert (frame + 1) as real == frame as real + 1.0;
    assert (frame as real + 1.0) * r * Spin(feedbackLoop) == frame as real * r * Spin(feedbackLoop) + r * Spin(feedbackLoop);
  }

  /** The overlay loop: nothing when off, otherwise the grid of the
      mode's step, row by row. */
  method DrawAscii(mode: AsciiMode) returns (ascii: Option<Overlay>)
    ensures ascii == AsciiOf(mode)
  {
    ascii := None;
    if mode != Off {
      var step := if mode == Low then 10 else 5;
      var cells := GridCells(step, Width, Height);
      ascii := Some(Overlay(step, cells, if mode == Low then 0.3 else 0.6));
    }
  }

  class Preview {
    /** The frame counter held by the ref. */
    var frameRef: int
    /** Whether an animation callback of the current effect is pending. */
    var scheduled: bool
    /** The props the current effect's draw was created with. */
    var props: Props

    /** The component mounts: the ref starts at zero and nothing is scheduled. */
    constructor Mount(p: Props)
      ensures frameRef == 0 && !scheduled && props == p
    {
      frameRef := 0;
      scheduled := false;
      props := p;
    }

    /** `draw`: the counter goes up by one and the frame with that number
        is drawn for the effect's props. */
    method Draw(glitchRoll: bool) returns (f: PreviewFrame)
      modifies this`frameRef
      ensures frameRef == old(frameRef) + 1
      ensures f == FrameOf(props, frameRef, glitchRoll)
    {
      frameRef := frameRef + 1;
      var frame := frameRef;
      var layers := DrawLayers(frame);
      assert layers == FrameOf(props, frame, glitchRoll).layers;
      var columns := Columns(3, Width);
      var ascii := DrawAscii(props.asciiMode);
      f := PreviewFrame(frame, if props.feedbackLoop then 0.5 else 0.2, layers,
                        BaseHue(props.feedbackLoop, props.colorPhase), props.lucidity * 0.8,
                        columns, ascii, props.feedbackLoop && glitchRoll);
    }

    /** The fractal loop: one hexagon per unit of depth, each path built by
        the vertex loop. */
    method DrawLayers(frame: int) returns (layers: seq<HexLayer>)
      ensures |layers| == Iterations(props.fractalizationDepth)
      ensures forall i :: 0 <= i < |layers| ==> layers[i] == LayerOf(props, frame, i)
    {
      layers := [];
      var i := 0;
      while i < props.fractalizationDepth
        invariant i == |layers| <= Iterations(props.fractalizationDepth)
        invariant forall m :: 0 <= m < i ==> layers[m] == LayerOf(props, frame, m)
      {
        var path := PolygonPath(6);
        layers := layers + [HexLayer(40 + i * 10, Rotation(frame, i, props.feedbackLoop), 1.0 - i as real / 10.0,
                                     LayerHue(BaseHue(props.feedbackLoop, props.colorPhase), i),
                                     0.3 + props.lucidity * 0.4, Distortion(props), path)];
        i := i + 1;
      }
    }

    /** The effect runs for `p`. Without a canvas or a 2D context it returns
        at once: nothing is drawn or scheduled. Otherwise it draws the next
        frame straight away and schedules the following one. */
    method RunEffect(p: Props, canvasPresent: bool, hasContext: bool, glitchRoll: bool) returns (f: Option<PreviewFrame>)
      requires !scheduled
      modifies this
      ensures !(canvasPresent && hasContext) ==>
        f == None && frameRef == old(frameRef) && !scheduled && props == old(props)
      ensures canvasPresent && hasContext ==>
        props == p && scheduled && frameRef == old(frameRef) + 1 &&
        f == Some(FrameOf(p, frameRef, glitchRoll))
    {
      if !canvasPresent || !hasContext {
        return None;
      }
      props := p;
      var frame := Draw(glitchRoll);
      scheduled := true;
      f := Some(frame);
    }

    /** The pending animation callback fires: it draws the next frame with
        the effect's props and schedules another. */
    method Fire(glitchRoll: bool) returns (f: PreviewFrame)
      requires scheduled
      modifies this`frameRef
      ensures frameRef == old(frameRef) + 1
      ensures f == FrameOf(props, frameRef, glitchRoll)
    {
      f := Draw(glitchRoll);
    }

    /** The effect's cleanup, run before it re-runs and on unmount: the
        pending callback is cancelled. The ref is left as it is. */
    method Cleanup()
      modifies this`scheduled
      ensures !scheduled
    {
      scheduled := false;
    }
  }

  /** A prop change in the middle of an animation: after the first effect's
      two frames, the re-run effect draws frame 3 with the new props, so the
      rotation continues from where it was rather than starting over, while
      a freshly mounted preview starts again at frame 1. */
  method PropsChangeKeepsCounting(p: Props, q: Props) returns (before: PreviewFrame, after: Option<PreviewFrame>, remounted: Option<PreviewFrame>)
    ensures before == FrameOf(p, 2, false)
    ensures after == Some(FrameOf(q, 3, false))
    ensures remounted == Some(FrameOf(q, 1, false))
  {
    var v := new Preview.Mount(p);
    var first := v.RunEffect(p, true, true, false);
    before := v.Fire(false);
    v.Cleanup();
    after := v.RunEffect(q, true, true, false);
    v.Cleanup();
    var w := new Preview.Mount(q);
    remounted := w.RunEffect(q, true, true, false);
  }

  /** The canvas's CSS filter and glow: both only while the feedback loop is on. */
  function CanvasStyle(feedbackLoop: bool): (style: (string, string))
    ensures style.0 == "none" <==> !feedbackLoop
    ensures style.1 == "none" <==> !feedbackLoop
  {
    if feedbackLoop then ("contrast(1.3) saturate(1.4)", "0 0 20px rgba(0, 255, 255, 0.3)") else ("none", "none")
  }
}
