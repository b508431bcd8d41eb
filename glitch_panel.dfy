/** The vanilla-script glitch control panel: a module-level parameter record
    that control handlers update one field at a time, the status LED that
    some of them refresh from the classifier, a programmatic
    `setState`/`getState` interface, and a canvas animation that keeps five
    shapes whose rotations it advances in place on every frame. */
module GlitchPanel {
  import opened Canvas
  import opened GlitchTypes

  /** The rule table of `updateSystemState`, checked in its order: chaos
      first, then stable, and transition for everything else. */
  function Classify(feedbackLoop: bool, lucidity: real, fractalizationDepth: int): (s: SystemState)
    ensures s == Chaos <==> feedbackLoop || lucidity < 0.3 || fractalizationDepth > 6
    ensures s == Stable <==> !feedbackLoop && lucidity > 0.6 && fractalizationDepth <= 6
    ensures s == Transition <==> !feedbackLoop && 0.3 <= lucidity <= 0.6 && fractalizationDepth <= 6
  {
    if feedbackLoop || lucidity < 0.3 || fractalizationDepth > 6 then Chaos
    else if !feedbackLoop && lucidity > 0.6 then Stable
    else Transition
  }

  /** A copy of the `state` record. */
  datatype Params = Params(
    feedbackLoop: bool,
    lucidity: real,
    fractalizationDepth: int,
    colorPhase: int,
    asciiMode: AsciiMode,
    isMinimized: bool)

  /** The record as the script declares it. */
  const InitialParams := Params(false, 0.75, 3, 180, Off, false)

  /** The object handed to `setState`: each key is present or absent. */
  datatype Patch = Patch(
    feedbackLoop: Option<bool>,
    lucidity: Option<real>,
    fractalizationDepth: Option<int>,
    colorPhase: Option<int>,
    asciiMode: Option<AsciiMode>,
    isMinimized: Option<bool>)

  const EmptyPatch: Patch := Patch(None, None, None, None, None, None)

  function Or<T>(o: Option<T>, default: T): T
  {
    if o.Some? then o.value else default
  }

  /** `Object.assign(state, patch)`: each supplied key overwrites its field;
      every absent key keeps the field it names. */
  function Merge(s: Params, p: Patch): (r: Params)
    ensures p.feedbackLoop.Some? ==> r.feedbackLoop == p.feedbackLoop.value
    ensures p.feedbackLoop.None? ==> r.feedbackLoop == s.feedbackLoop
    ensures p.lucidity.Some? ==> r.lucidity == p.lucidity.value
    ensures p.lucidity.None? ==> r.lucidity == s.lucidity
    ensures p.fractalizationDepth.Some? ==> r.fractalizationDepth == p.fractalizationDepth.value
    ensures p.fractalizationDepth.None? ==> r.fractalizationDepth == s.fractalizationDepth
    ensures p.colorPhase.Some? ==> r.colorPhase == p.colorPhase.value
    ensures p.colorPhase.None? ==> r.colorPhase == s.colorPhase
    ensures p.asciiMode.Some? ==> r.asciiMode == p.asciiMode.value
    ensures p.asciiMode.None? ==> r.asciiMode == s.asciiMode
    ensures p.isMinimized.Some? ==> r.isMinimized == p.isMinimized.value
    ensures p.isMinimized.None? ==> r.isMinimized == s.isMinimized
  {
    Params(
      Or(p.feedbackLoop, s.feedbackLoop),
      Or(p.lucidity, s.lucidity),
      Or(p.fractalizationDepth, s.fractalizationDepth),
      Or(p.colorPhase, s.colorPhase),
      Or(p.asciiMode, s.asciiMode),
      Or(p.isMinimized, s.isMinimized))
  }

  /** The patch that supplies every key with the values of `s`. */
  function FullPatch(s: Params): Patch
  {
    Patch(Some(s.feedbackLoop), Some(s.lucidity), Some(s.fractalizationDepth),
          Some(s.colorPhase), Some(s.asciiMode), Some(s.isMinimized))
  }

  /** Assigning the later patch over the earlier one. */
  function Then(p: Patch, q: Patch): Patch
  {
    Patch(
      if q.feedbackLoop.Some? then q.feedbackLoop else p.feedbackLoop,
      if q.lucidity.Some? then q.lucidity else p.lucidity,
      if q.fractalizationDepth.Some? then q.fractalizationDepth else p.fractalizationDepth,
      if q.colorPhase.Some? then q.colorPhase else p.colorPhase,
      if q.asciiMode.Some? then q.asciiMode else p.asciiMode,
      if q.isMinimized.Some? then q.isMinimized else p.isMinimized)
  }

  /** An empty patch changes nothing, the same patch twice is the patch once,
      two patches in a row are their combination, and handing `setState`
      a `getState` copy restores that copy whatever the state was. */
  lemma MergeLaws(s: Params, t: Params, p: Patch, q: Patch)
    ensures Merge(s, EmptyPatch) == s
    ensures Merge(Merge(s, p), p) == Merge(s, p)
    ensures Merge(Merge(s, p), q) == Merge(s, Then(p, q))
    ensures Merge(s, FullPatch(t)) == t
  {
  }

  /** A value a control reports to listeners. */
  datatype Value = BoolValue(b: bool) | RealValue(r: real) | IntValue(i: int) | ModeValue(m: AsciiMode)

  /** The `detail` of a `glitch-panel-update` event: the parameter name, its
      new value, the time it was sent, and a copy of the whole record. */
  datatype Detail = Detail(parameter: string, value: Value, timestamp: int, fullState: Params)

  /** What the handlers have written into the page so far; `None` means the
      element still shows what the page was loaded with. */
  datatype Dom = Dom(
    led: Option<SystemState>,     // class of the LED and text and data-state of the state display
    indicator: Option<Gradient>,  // background and glow of the colour indicator
    buttons: Option<seq<bool>>,   // data-active of the OFF, LOW and HIGH buttons
    switchOn: Option<bool>,       // data-state of the feedback switch
    minimized: Option<bool>)      // 'minimized' class of the panel and the glyph of its button

  const UntouchedDom := Dom(None, None, None, None, None)

  datatype ShapeKind = Triangle | Circle | Hexagon

  const Kinds: seq<ShapeKind> := [Triangle, Circle, Hexagon]

  datatype Shape = Shape(x: real, y: real, size: int, rotation: real, rotationSpeed: real, kind: ShapeKind)

  /** The i-th shape `initCanvas` pushes: centred, size `40 + i * 10`, at rest,
      speed `(i + 1) * 0.01`, kinds cycling triangle, circle, hexagon. */
  function NewShape(surface: Surface, i: nat): Shape
  {
    Shape(surface.width as real / 2.0, surface.height as real / 2.0,
          40 + i * 10, 0.0, (i + 1) as real / 100.0, Kinds[i % 3])
  }

  /** The five shapes differ in size and speed, and their kinds repeat with period three. */
  lemma NewShapesDiffer(surface: Surface, i: nat, j: nat)
    requires i < j < 5
    ensures NewShape(surface, i).size < NewShape(surface, j).size
    ensures NewShape(surface, i).rotationSpeed < NewShape(surface, j).rotationSpeed
    ensures NewShape(surface, i).kind == NewShape(surface, j).kind <==> j == i + 3
  {
  }

  /** How many of the loop indices `0 .. iterations - 1` pick shape `k` out of `n`. */
  function Bumps(k: nat, iterations: nat, n: nat): nat
    requires n > 0
  {
    if iterations == 0 then 0
    else Bumps(k, iterations - 1, n) + (if (iterations - 1) % n == k then 1 else 0)
  }

  /** After `q` full rounds over the `n` shapes and `r` more indices, shape
      `k` has been picked once per round, plus once more when it is among
      the first `r`. */
  lemma {:induction false} BumpsRounds(k: nat, q: nat, r: nat, n: nat)
    requires k < n && r <= n
    ensures Bumps(k, q * n + r, n) == q + (if k < r then 1 else 0)
    decreases q, r
  {
    if r == 0 {
      if q > 0 {
        assert q * n + 0 == (q - 1) * n + n;
        BumpsRounds(k, q - 1, n, n);
      }
    } else {
      BumpsRounds(k, q, r - 1, n);
      DivModUnique(q * n + r - 1, n, q, r - 1);
    }
  }

  /** A frame with fewer iterations than shapes leaves every shape from
      `iterations` on where it was. */
  lemma {:induction false} BumpsUntouched(k: nat, iterations: nat, n: nat)
    requires k < n && iterations <= k
    ensures Bumps(k, iterations, n) == 0
  {
    BumpsRounds(k, 0, iterations, n);
  }

  /** The pick count in closed form: one per full round over the shapes,
      plus one for the shapes the last, partial round reaches. */
  lemma BumpsClosed(k: nat, iterations: nat, n: nat)
    requires k < n
    ensures Bumps(k, iterations, n) == iterations / n + (if k < iterations % n then 1 else 0)
  {
    assert iterations == (iterations / n) * n + iterations % n;
    BumpsRounds(k, iterations / n, iterations % n, n);
  }

  function Turns(count: nat, step: real): real
  {
    count as real * step
  }

  /** The shapes after a frame of `iterations` layers: each shape turned by
      its own speed times the spin once for every index that picked it. */
  function Rotated(shapes: seq<Shape>, iterations: nat, spin: real): (r: seq<Shape>)
    requires |shapes| > 0
    ensures |r| == |shapes|
    ensures forall k :: 0 <= k < |shapes| ==> r[k] == Turned(shapes[k], Bumps(k, iterations, |shapes|), spin)
    ensures forall k :: 0 <= k < |shapes| ==>
      r[k] == Turned(shapes[k], iterations / |shapes| + (if k < iterations % |shapes| then 1 else 0), spin)
  {
    assert forall k :: 0 <= k < |shapes| ==>
      Bumps(k, iterations, |shapes|) == iterations / |shapes| + (if k < iterations % |shapes| then 1 else 0) by {
      forall k | 0 <= k < |shapes| {
        BumpsClosed(k, iterations, |shapes|);
      }
    }
    seq(|shapes|, k requires 0 <= k < |shapes| => Turned(shapes[k], Bumps(k, iterations, |shapes|), spin))
  }

  /** A shape turned `count` times by its speed times the spin. */
  function Turned(s: Shape, count: nat, spin: real): Shape
  {
    s.(rotation := s.rotation + Turns(count, s.rotationSpeed * spin))
  }

  /** Turning a shape once more after `count` turns is turning it `count + 1` times. */
  lemma TurnedAgain(s: Shape, count: nat, spin: real)
    ensures Turned(s, count + 1, spin) ==
      var t := Turned(s, count, spin); t.(rotation := t.rotation + t.rotationSpeed * spin)
  {
    var step := s.rotationSpeed * spin;
    assert Turns(count + 1, step) == Turns(count, step) + step by {
      assert (count + 1) as real == count as real + 1.0;
    }
  }

  /** `shape.rotation += shape.rotationSpeed * (1 + chaos)` on shape `k`. */
  function TurnOne(shapes: seq<Shape>, k: nat, spin: real): seq<Shape>
    requires k < |shapes|
  {
    shapes[k := shapes[k].(rotation := shapes[k].rotation + shapes[k].rotationSpeed * spin)]
  }

  /** Turning the shape that index `i` picks by one step advances the
      rotated shapes from `i` indices to `i + 1`. */
  lemma RotatedStep(start: seq<Shape>, i: nat, spin: real)
    requires |start| > 0
    ensures TurnOne(Rotated(start, i, spin), i % |start|, spin) == Rotated(start, i + 1, spin)
  {
    var n, k := |start|, i % |start|;
    var cur, next := Rotated(start, i, spin), Rotated(start, i + 1, spin);
    var bumped := TurnOne(cur, k, spin);
    forall m | 0 <= m < n
      ensures bumped[m] == next[m]
    {
      var b := Bumps(m, i, n);
      assert Bumps(m, i + 1, n) == b + (if k == m then 1 else 0);
      assert cur[m] == Turned(start[m], b, spin);
      if m == k {
        TurnedAgain(start[m], b, spin);
      }
    }
    assert bumped == next;
  }

  /** One fractal layer as drawn: which shape, its kind and size, the
      rotation it is drawn with, its scale, stroke hue and alpha, the
      amplitude of its wobbling offset and the fractal intensity that
      `drawShape` bends a hexagon's outline by. */
  datatype ShapeDraw = ShapeDraw(shape: nat, kind: ShapeKind, size: int, rotation: real, scale: real, hue: int, alpha: real,
                                 distortion: real, intensity: real)

  /** One frame as a list of draw commands instead of pixels. The waveform
      is the sum of two sine terms whose amplitudes are `waveSwing` and
      `waveRipple`. */
  datatype Frame = Frame(
    fadeAlpha: real,
    layers: seq<ShapeDraw>,
    waveHue: int,
    waveAlpha: real,
    waveSwing: real,
    waveRipple: real,
    waveColumns: seq<int>,
    ascii: Option<Overlay>,
    glitch: bool)

  /** `fractalIntensity`: the depth as a fraction of the slider's maximum 9. */
  function Intensity(fractalizationDepth: int): real
  {
    fractalizationDepth as real / 9.0
  }

  /** The amplitude of a layer's wobble: `(1 - stability) * 20 * chaos`. */
  function Wobble(feedbackLoop: bool, lucidity: real): real
  {
    (1.0 - lucidity) * 20.0 * (if feedbackLoop then 1.0 else 0.0)
  }

  /** Layer `i` of a frame that started from `shapes`: it draws shape
      `i % n` with the rotation that shape had reached after the earlier
      layers that picked it. */
  function LayerAt(shapes: seq<Shape>, i: nat, feedbackLoop: bool, lucidity: real, fractalizationDepth: int,
                   colorPhase: int): ShapeDraw
    requires |shapes| > 0
  {
    var k := i % |shapes|;
    ShapeDraw(k, shapes[k].kind, shapes[k].size,
              shapes[k].rotation + Turns(Bumps(k, i, |shapes|), shapes[k].rotationSpeed * Spin(feedbackLoop)),
              1.0 - i as real / 10.0,
              LayerHue(BaseHue(feedbackLoop, colorPhase), i),
              0.3 + lucidity * 0.4,
              Wobble(feedbackLoop, lucidity),
              Intensity(fractalizationDepth))
  }

  /** Layer `i` is drawn from the shape it picks as the first `i` layers
      left it. */
  lemma LayerOfRotated(start: seq<Shape>, i: nat, feedbackLoop: bool, lucidity: real, fractalizationDepth: int,
                       colorPhase: int)
    requires |start| > 0
    ensures var k := i % |start|; var shape := Rotated(start, i, Spin(feedbackLoop))[k];
      LayerAt(start, i, feedbackLoop, lucidity, fractalizationDepth, colorPhase) ==
      ShapeDraw(k, shape.kind, shape.size, shape.rotation, 1.0 - i as real / 10.0,
                LayerHue(BaseHue(feedbackLoop, colorPhase), i), 0.3 + lucidity * 0.4,
                Wobble(feedbackLoop, lucidity), Intensity(fractalizationDepth))
  {
  }

  /** Without feedback no layer wobbles; with it the amplitude falls as the
      lucidity rises, from 20 at lucidity 0 to none at lucidity 1. Every
      layer of a frame bends by the same intensity, which the depth slider's
      range 1 to 9 keeps in (0, 1]. */
  lemma LayerWobble(shapes: seq<Shape>, i: nat, feedbackLoop: bool, lucidity: real, lucidity': real,
                    fractalizationDepth: int, colorPhase: int)
    requires |shapes| > 0
    ensures !feedbackLoop ==> LayerAt(shapes, i, feedbackLoop, lucidity, fractalizationDepth, colorPhase).distortion == 0.0
    ensures feedbackLoop && lucidity < lucidity' ==>
      LayerAt(shapes, i, feedbackLoop, lucidity', fractalizationDepth, colorPhase).distortion <
      LayerAt(shapes, i, feedbackLoop, lucidity, fractalizationDepth, colorPhase).distortion
    ensures feedbackLoop && 0.0 <= lucidity <= 1.0 ==>
      0.0 <= LayerAt(shapes, i, feedbackLoop, lucidity, fractalizationDepth, colorPhase).distortion <= 20.0
    ensures 1 <= fractalizationDepth <= 9 ==>
      0.0 < LayerAt(shapes, i, feedbackLoop, lucidity, fractalizationDepth, colorPhase).intensity <= 1.0
  {
  }

  /** The ASCII overlay for a mode: none when off, a 20-pixel grid at alpha
      0.3 for LOW and a 10-pixel grid at alpha 0.6 otherwise. */
  function AsciiOverlay(mode: AsciiMode, surface: Surface): Option<Overlay>
  {
    if mode == Off then None
    else
      var step := if mode == Low then 20 else 10;
      Some(Overlay(step, Rows(StepsFrom(0, step, surface.height), StepsFrom(0, step, surface.width)),
                   if mode == Low then 0.3 else 0.6))
  }

  class Panel {
    var feedbackLoop: bool
    var lucidity: real
    var fractalizationDepth: int
    var colorPhase: int
    var asciiMode: AsciiMode
    var isMinimized: bool
    var dom: Dom
    var frameCount: int
    var shapes: seq<Shape>

    /** `getState`'s copy of the record. */
    function Snapshot(): Params
      reads this
    {
      Params(feedbackLoop, lucidity, fractalizationDepth, colorPhase, asciiMode, isMinimized)
    }

    /** The LED and the colour indicator show the current record. */
    ghost predicate Synced()
      reads this
    {
      dom.led == Some(Classify(feedbackLoop, lucidity, fractalizationDepth)) &&
      dom.indicator == Some(Indicator(colorPhase))
    }

    /** The script is evaluated: the record has its declared values, the
      frame counter is zero and there are no shapes yet. */
    constructor Load()
      ensures Snapshot() == InitialParams && dom == UntouchedDom
      ensures frameCount == 0 && shapes == []
    {
      feedbackLoop, lucidity, fractalizationDepth := false, 0.75, 3;
      colorPhase, asciiMode, isMinimized := 180, Off, false;
      dom := UntouchedDom;
      frameCount, shapes := 0, [];
    }

    /** The `DOMContentLoaded` handler: the controls paint the colour
        indicator, the canvas starts, the LED is set and OFF is selected. */
    method ContentLoaded(canvas: Option<Surface>, hasContext: bool, glitchRoll: bool) returns (first: Option<Frame>)
      requires shapes == []
      modifies this
      ensures Snapshot() == old(Snapshot()).(asciiMode := Off)
      ensures Synced() && dom.buttons == Some(ActiveFlags(Off))
      ensures dom.switchOn == old(dom.switchOn) && dom.minimized == old(dom.minimized)
      ensures first.Some? <==> canvas.Some? && hasContext
      ensures first.None? ==> frameCount == old(frameCount) && shapes == []
      ensures first.Some? ==>
        var created := seq(5, i requires 0 <= i < 5 => NewShape(canvas.value, i));
        frameCount == old(frameCount) + 1 &&
        shapes == Rotated(created, Iterations(fractalizationDepth), Spin(feedbackLoop)) &&
        |first.value.layers| == Iterations(fractalizationDepth) &&
        forall i :: 0 <= i < |first.value.layers| ==>
          first.value.layers[i] == LayerAt(created, i, feedbackLoop, lucidity, fractalizationDepth, colorPhase)
    {
      UpdateColorIndicator();
      if canvas.Some? {
        assert shapes + seq(5, i requires 0 <= i < 5 => NewShape(canvas.value, i)) ==
          seq(5, i requires 0 <= i < 5 => NewShape(canvas.value, i));
      }
      first := InitCanvas(canvas, hasContext, glitchRoll);
      var _ := UpdateSystemState();
      SetAsciiMode(Off);
    }

    /** `toggleMinimize`: flips the flag and the panel's class; nothing else changes. */
    method ToggleMinimize()
      modifies this
      ensures Snapshot() == old(Snapshot()).(isMinimized := !old(isMinimized))
      ensures dom == old(dom).(minimized := Some(isMinimized))
      ensures frameCount == old(frameCount) && shapes == old(shapes)
    {
      isMinimized := !isMinimized;
      dom := dom.(minimized := Some(isMinimized));
    }

    /** `updateFeedbackState`: the switch shows the flag. */
    method UpdateFeedbackState()
      modifies this`dom
      ensures dom == old(dom).(switchOn := Some(feedbackLoop))
    {
      dom := dom.(switchOn := Some(feedbackLoop));
    }

    /** `setASCIIMode`: stores the mode and marks exactly its button active. */
    method SetAsciiMode(mode: AsciiMode)
      modifies this`asciiMode, this`dom
      ensures asciiMode == mode
      ensures dom == old(dom).(buttons := Some(ActiveFlags(mode)))
    {
      asciiMode := mode;
      dom := dom.(buttons := Some(ActiveFlags(mode)));
    }

    /** `updateColorIndicator`: repaints the gradient from the colour phase. */
    method UpdateColorIndicator()
      modifies this`dom
      ensures dom == old(dom).(indicator := Some(Indicator(colorPhase)))
    {
      dom := dom.(indicator := Some(Indicator(colorPhase)));
    }

    /** `updateSystemState`: classifies the record, shows the label and returns it. */
    method UpdateSystemState() returns (s: SystemState)
      modifies this`dom
      ensures s == Classify(feedbackLoop, lucidity, fractalizationDepth)
      ensures dom == old(dom).(led := Some(s))
    {
      if feedbackLoop || lucidity < 0.3 || fractalizationDepth > 6 {
        s := Chaos;
      } else if !feedbackLoop && lucidity > 0.6 {
        s := Stable;
      } else {
        s := Transition;
      }
      dom := dom.(led := Some(s));
    }

    /** `broadcastState`: the event detail for one changed parameter. */
    method Broadcast(parameter: string, value: Value, now: int) returns (d: Detail)
      ensures d.parameter == parameter && d.value == value && d.timestamp == now
      ensures d.fullState == Snapshot()
    {
      d := Detail(parameter, value, now, Snapshot());
    }

    /** The feedback toggle's change handler. */
    method OnFeedbackChange(checked: bool, now: int) returns (d: Detail)
      modifies this
      ensures Snapshot() == old(Snapshot()).(feedbackLoop := checked)
      ensures dom == old(dom).(switchOn := Some(checked), led := Some(Classify(checked, lucidity, fractalizationDepth)))
      ensures old(Synced()) ==> Synced()
      ensures frameCount == old(frameCount) && shapes == old(shapes)
      ensures d == Detail("feedback-loop", BoolValue(checked), now, Snapshot())
    {
      feedbackLoop := checked;
      UpdateFeedbackState();
      var _ := UpdateSystemState();
      d := Broadcast("feedback-loop", BoolValue(feedbackLoop), now);
    }

    /** The lucidity slider's input handler (`parseFloat` of the slider value). */
    method OnLucidityInput(value: real, now: int) returns (d: Detail)
      modifies this
      ensures Snapshot() == old(Snapshot()).(lucidity := value)
      ensures dom == old(dom).(led := Some(Classify(feedbackLoop, value, fractalizationDepth)))
      ensures old(Synced()) ==> Synced()
      ensures frameCount == old(frameCount) && shapes == old(shapes)
      ensures d == Detail("lucidity", RealValue(value), now, Snapshot())
    {
      lucidity := value;
      var _ := UpdateSystemState();
      d := Broadcast("lucidity", RealValue(lucidity), now);
    }

    /** The depth slider's input handler (`parseInt` of the slider value). */
    method OnDepthInput(value: int, now: int) returns (d: Detail)
      modifies this
      ensures Snapshot() == old(Snapshot()).(fractalizationDepth := value)
      ensures dom == old(dom).(led := Some(Classify(feedbackLoop, lucidity, value)))
      ensures old(Synced()) ==> Synced()
      ensures frameCount == old(frameCount) && shapes == old(shapes)
      ensures d == Detail("fractal-depth", IntValue(value), now, Snapshot())
    {
      fractalizationDepth := value;
      var _ := UpdateSystemState();
      d := Broadcast("fractal-depth", IntValue(fractalizationDepth), now);
    }

    /** The colour slider's input handler: it repaints the indicator and
        leaves the LED as it was. */
    method OnColorPhaseInput(value: int, now: int) returns (d: Detail)
      modifies this
      ensures Snapshot() == old(Snapshot()).(colorPhase := value)
      ensures dom == old(dom).(indicator := Some(Indicator(value)))
      ensures old(Synced()) ==> Synced()
      ensures frameCount == old(frameCount) && shapes == old(shapes)
      ensures d == Detail("color-phase", IntValue(value), now, Snapshot())
    {
      colorPhase := value;
      UpdateColorIndicator();
      d := Broadcast("color-phase", IntValue(colorPhase), now);
    }

    /** A mode button's click handler: it selects the mode and leaves the LED as it was. */
    method OnModeClick(mode: AsciiMode, now: int) returns (d: Detail)
      modifies this
      ensures Snapshot() == old(Snapshot()).(asciiMode := mode)
      ensures dom == old(dom).(buttons := Some(ActiveFlags(mode)))
      ensures old(Synced()) ==> Synced()
      ensures frameCount == old(frameCount) && shapes == old(shapes)
      ensures d == Detail("ascii-mode", ModeValue(mode), now, Snapshot())
    {
      SetAsciiMode(mode);
      d := Broadcast("ascii-mode", ModeValue(mode), now);
    }

    /** `GlitchPanel.setState`: merges the patch, then refreshes the LED and
        the colour indicator. The mode buttons, the switch and the
        minimized class are not refreshed. */
    method SetState(p: Patch)
      modifies this
      ensures Snapshot() == Merge(old(Snapshot()), p)
      ensures Synced()
      ensures dom.buttons == old(dom.buttons) && dom.switchOn == old(dom.switchOn)
      ensures dom.minimized == old(dom.minimized)
      ensures frameCount == old(frameCount) && shapes == old(shapes)
    {
      var r := Merge(Snapshot(), p);
      feedbackLoop, lucidity, fractalizationDepth := r.feedbackLoop, r.lucidity, r.fractalizationDepth;
      colorPhase, asciiMode, isMinimized := r.colorPhase, r.asciiMode, r.isMinimized;
      var _ := UpdateSystemState();
      UpdateColorIndicator();
    }

    /** `GlitchPanel.getState`: a copy of the record. */
    method GetState() returns (s: Params)
      ensures s == Snapshot()
    {
      s := Params(feedbackLoop, lucidity, fractalizationDepth, colorPhase, asciiMode, isMinimized);
    }

    /** `initCanvas`: without a canvas or a 2D context nothing happens;
        otherwise five new shapes are appended and the first frame is drawn. */
    method InitCanvas(canvas: Option<Surface>, hasContext: bool, glitchRoll: bool) returns (first: Option<Frame>)
      modifies this`frameCount, this`shapes
      ensures first.Some? <==> canvas.Some? && hasContext
      ensures first.None? ==> frameCount == old(frameCount) && shapes == old(shapes)
      ensures first.Some? ==>
        var pushed := old(shapes) + seq(5, i requires 0 <= i < 5 => NewShape(canvas.value, i));
        frameCount == old(frameCount) + 1 &&
        shapes == Rotated(pushed, Iterations(fractalizationDepth), Spin(feedbackLoop)) &&
        |first.value.layers| == Iterations(fractalizationDepth) &&
        forall i :: 0 <= i < |first.value.layers| ==>
          first.value.layers[i] == LayerAt(pushed, i, feedbackLoop, lucidity, fractalizationDepth, colorPhase)
    {
      if canvas.None? || !hasContext {
        return None;
      }
      ghost var before := shapes;
      var i := 0;
      while i < 5
        invariant 0 <= i <= 5
        invariant frameCount == old(frameCount)
        invariant shapes == before + seq(i, j requires 0 <= j < i => NewShape(canvas.value, j))
      {
        shapes := shapes + [NewShape(canvas.value, i)];
        i := i + 1;
      }
      var f := Animate(canvas.value, glitchRoll);
      first := Some(f);
    }

    /** `animate`: one frame. The counter goes up by one; layer `i` draws
        shape `i % n` and then turns it by one step, so each shape turns once
        per index that picks it; the rest of the frame follows the record. */
    method Animate(surface: Surface, glitchRoll: bool) returns (f: Frame)
      requires |shapes| > 0
      modifies this`frameCount, this`shapes
      ensures frameCount == old(frameCount) + 1
      ensures shapes == Rotated(old(shapes), Iterations(fractalizationDepth), Spin(feedbackLoop))
      ensures |f.layers| == Iterations(fractalizationDepth)
      ensures forall i :: 0 <= i < |f.layers| ==>
        f.layers[i] == LayerAt(old(shapes), i, feedbackLoop, lucidity, fractalizationDepth, colorPhase)
      ensures f.fadeAlpha == if feedbackLoop then 0.5 else 0.2
      ensures f.waveHue == BaseHue(feedbackLoop, colorPhase) && f.waveAlpha == lucidity * 0.8
      ensures f.waveSwing == (if feedbackLoop then 30.0 else 15.0)
      ensures f.waveRipple == 10.0 * Intensity(fractalizationDepth)
      ensures f.waveColumns == StepsFrom(0, 3, surface.width)
      ensures f.ascii == AsciiOverlay(asciiMode, surface)
      ensures f.glitch <==> feedbackLoop && glitchRoll
    {
      frameCount := frameCount + 1;
      var chaos := if feedbackLoop then 1 else 0;
      var baseHue := if chaos == 1 then JsRem(180 + colorPhase, 360) else colorPhase;
      var layers := DrawLayers();
      var columns := Columns(3, surface.width);
      var ascii: Option<Overlay> := None;
      if asciiMode != Off {
        var step := if asciiMode == Low then 20 else 10;
        var cells := GridCells(step, surface.width, surface.height);
        ascii := Some(Overlay(step, cells, if asciiMode == Low then 0.3 else 0.6));
      }
      var fractalIntensity := fractalizationDepth as real / 9.0;
      f := Frame(0.2 + chaos as real * 0.3, layers, baseHue, lucidity * 0.8,
                 15.0 * (1 + chaos) as real, 10.0 * fractalIntensity, columns, ascii,
                 feedbackLoop && glitchRoll);
    }

    /** The fractal loop of `animate`: `for (i = 0; i < fractalizationDepth; i++)`
        draws `shapes[i % shapes.length]` and then bumps that shape's rotation. */
    method DrawLayers() returns (layers: seq<ShapeDraw>)
      requires |shapes| > 0
      modifies this`shapes
      ensures shapes == Rotated(old(shapes), Iterations(fractalizationDepth), Spin(feedbackLoop))
      ensures |layers| == Iterations(fractalizationDepth)
      ensures forall i :: 0 <= i < |layers| ==>
        layers[i] == LayerAt(old(shapes), i, feedbackLoop, lucidity, fractalizationDepth, colorPhase)
    {
      ghost var start := shapes;
      layers := [];
      var i := 0;
      while i < fractalizationDepth
        invariant 0 <= i <= Iterations(fractalizationDepth)
        invariant shapes == Rotated(start, i, Spin(feedbackLoop))
        invariant |layers| == i
        invariant forall j :: 0 <= j < i ==> layers[j] == LayerAt(start, j, feedbackLoop, lucidity, fractalizationDepth, colorPhase)
      {
        var layer := DrawLayer(i, start);
        layers := layers + [layer];
        i := i + 1;
      }
    }

    /** One pass of the fractal loop: layer `i` draws `shapes[i % n]` as the
        first `i` passes left it, then turns that shape by one step. */
    method DrawLayer(i: nat, ghost start: seq<Shape>) returns (layer: ShapeDraw)
      requires |start| > 0 && shapes == Rotated(start, i, Spin(feedbackLoop))
      modifies this`shapes
      ensures shapes == Rotated(start, i + 1, Spin(feedbackLoop))
      ensures layer == LayerAt(start, i, feedbackLoop, lucidity, fractalizationDepth, colorPhase)
    {
      var chaos := if feedbackLoop then 1.0 else 0.0;
      var spin := 1.0 + chaos;
      var intensity := fractalizationDepth as real / 9.0;
      var baseHue := if feedbackLoop then JsRem(180 + colorPhase, 360) else colorPhase;
      assert spin == Spin(feedbackLoop) && baseHue == BaseHue(feedbackLoop, colorPhase);
      var n := |shapes|;
      var k := i % n;
      var shape := shapes[k];
      layer := ShapeDraw(k, shape.kind, shape.size, shape.rotation, 1.0 - i as real / 10.0,
                         JsRem(baseHue + i * 40, 360), 0.3 + lucidity * 0.4,
                         (1.0 - lucidity) * 20.0 * chaos, intensity);
      LayerOfRotated(start, i, feedbackLoop, lucidity, fractalizationDepth, colorPhase);
      shapes := shapes[k := shape.(rotation := shape.rotation + shape.rotationSpeed * spin)];
      assert shapes == TurnOne(Rotated(start, i, spin), k, spin);
      RotatedStep(start, i, spin);
    }
  }

  /** Two toggles restore the record and the state of the page's class. */
  method ToggleTwice(p: Panel)
    modifies p
    ensures p.Snapshot() == old(p.Snapshot())
    ensures p.dom == old(p.dom).(minimized := Some(old(p.isMinimized)))
  {
    p.ToggleMinimize();
    p.ToggleMinimize();
  }

  /** Every handler keeps the LED and the indicator in step with the record
      once the page has loaded; `setState` does so too, but it leaves the
      mode buttons showing the old mode when it changes `asciiMode`. */
  method SetStateLeavesButtons(p: Panel)
    requires p.asciiMode == Off && p.dom.buttons == Some(ActiveFlags(Off))
    modifies p
    ensures p.Synced() && p.asciiMode == High
    ensures p.dom.buttons != Some(ActiveFlags(p.asciiMode))
  {
    p.SetState(EmptyPatch.(asciiMode := Some(High)));
    assert ActiveFlags(Off)[2] != ActiveFlags(High)[2];
  }
}
