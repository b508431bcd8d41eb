/** The vocabulary shared by the vanilla panel script and the React panel:
    the three system-state labels, the three ASCII overlay modes, the mode
    buttons, and the hue arithmetic of both renderers and both colour
    indicators. */
module GlitchTypes {
  import opened Canvas

  datatype SystemState = Stable | Transition | Chaos

  datatype AsciiMode = Off | Low | High

  /** The mode buttons, in document order. */
  const Modes: seq<AsciiMode> := [Off, Low, High]

  /** The `data-active` flag of each mode button once `mode` is selected:
      a button is active when its `data-mode` is the selected mode. */
  function ActiveFlags(mode: AsciiMode): seq<bool>
  {
    seq(|Modes|, k requires 0 <= k < |Modes| => Modes[k] == mode)
  }

  function CountTrue(flags: seq<bool>): nat
  {
    if flags == [] then 0 else CountTrue(flags[1..]) + (if flags[0] then 1 else 0)
  }

  /** Exactly one button is active, and it is the button of the selected mode. */
  lemma ExactlyOneActive(mode: AsciiMode)
    ensures |ActiveFlags(mode)| == |Modes|
    ensures CountTrue(ActiveFlags(mode)) == 1
    ensures forall k :: 0 <= k < |Modes| ==> (ActiveFlags(mode)[k] <==> Modes[k] == mode)
  {
    var f := ActiveFlags(mode);
    assert f == [mode == Off, mode == Low, mode == High];
    assert f[1..] == [mode == Low, mode == High];
    assert f[1..][1..] == [mode == High];
    assert f[1..][1..][1..] == [];
    assert CountTrue(f[1..][1..]) == (if mode == High then 1 else 0);
    assert CountTrue(f[1..]) == (if mode == Off then 0 else 1);
  }

  /** How many fractal layers a frame draws: one per unit of depth, none for a depth below 1. */
  function Iterations(fractalizationDepth: int): nat
  {
    if fractalizationDepth > 0 then fractalizationDepth else 0
  }

  /** The factor `1 + chaos` of every rotation: 2 while the feedback loop is on, else 1. */
  function Spin(feedbackLoop: bool): real
  {
    if feedbackLoop then 2.0 else 1.0
  }

  /** The base hue of a frame: the colour phase, inverted by 180 degrees
      while the feedback loop is on (`(180 + hueShift) % 360`). */
  function BaseHue(feedbackLoop: bool, colorPhase: int): int
  {
    if feedbackLoop then JsRem(180 + colorPhase, 360) else colorPhase
  }

  /** For a colour phase the slider can produce, the base hue is a hue in
      [0, 360); the inversion lands 180 degrees from the phase; and inverting
      an inverted hue gives the phase back. */
  lemma BaseHueInverts(colorPhase: int)
    requires 0 <= colorPhase < 360
    ensures 0 <= BaseHue(false, colorPhase) < 360
    ensures 0 <= BaseHue(true, colorPhase) < 360
    ensures BaseHue(true, colorPhase) != colorPhase
    ensures (BaseHue(true, colorPhase) - colorPhase - 180) % 360 == 0
    ensures BaseHue(true, BaseHue(true, colorPhase)) == colorPhase
  {
  }

  /** The stroke hue of the i-th layer: `(baseHue + i * 40) % 360`. */
  function LayerHue(baseHue: int, i: int): (h: int)
    ensures baseHue >= 0 && i >= 0 ==> 0 <= h < 360
  {
    JsRem(baseHue + i * 40, 360)
  }

  /** Layer hues repeat every nine layers, and the nine layers the depth
      slider allows at most all get different hues. */
  lemma LayerHuesDistinct(baseHue: int, i: int, j: int)
    requires baseHue >= 0 && 0 <= i < j
    ensures LayerHue(baseHue, i) == LayerHue(baseHue, j) <==> (j - i) % 9 == 0
  {
    var a, b := baseHue + i * 40, baseHue + j * 40;
    var qa, ra := a / 360, a % 360;
    var qb, rb := b / 360, b % 360;
    assert b - a == (j - i) * 40;
    if ra == rb {
      assert (j - i) * 40 == 360 * (qb - qa);
      assert (j - i) * 4 == 36 * (qb - qa);
      assert (j - i) == 9 * (qb - qa);
      DivModUnique(j - i, 9, qb - qa, 0);
    }
    if (j - i) % 9 == 0 {
      var m := (j - i) / 9;
      assert b == a + 360 * m;
      assert b == 360 * (qa + m) + ra;
      DivModUnique(b, 360, qa + m, ra);
    }
  }

  /** The three stops of a colour indicator's gradient and its glow. */
  datatype Gradient = Gradient(stop0: int, stop1: int, stop2: int, glow: int)

  /** `hsl(hue)`, `hsl((hue + 60) % 360)`, `hsl((hue + 120) % 360)`, glow `hsla(hue)`. */
  function Indicator(hue: int): Gradient
  {
    Gradient(hue, JsRem(hue + 60, 360), JsRem(hue + 120, 360), hue)
  }

  /** For a non-negative hue the second and third stops are reduced into
      [0, 360) and lie 60 degrees apart around the circle, while the first
      stop and the glow keep the hue unreduced (360 stays 360). */
  lemma IndicatorStops(hue: int)
    requires hue >= 0
    ensures Indicator(hue).stop0 == Indicator(hue).glow == hue
    ensures 0 <= Indicator(hue).stop1 < 360 && 0 <= Indicator(hue).stop2 < 360
    ensures Indicator(hue).stop2 == JsRem(Indicator(hue).stop1 + 60, 360)
    ensures (Indicator(hue).stop1 - hue - 60) % 360 == 0
  {
    var s1 := JsRem(hue + 60, 360);
    var q := (hue + 60) / 360;
    assert hue + 60 == 360 * q + s1;
    assert hue + 120 == 360 * q + (s1 + 60);
    if s1 + 60 < 360 {
      DivModUnique(hue + 120, 360, q, s1 + 60);
    } else {
      assert hue + 120 == 360 * (q + 1) + (s1 + 60 - 360);
      DivModUnique(hue + 120, 360, q + 1, s1 + 60 - 360);
      DivModUnique(s1 + 60, 360, 1, s1 + 60 - 360);
    }
  }
}
