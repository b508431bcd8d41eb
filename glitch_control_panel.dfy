/** The React glitch control panel. Its state is six hook values that only
    change by whole-value replacement, so it is modelled as an immutable
    record, the setters as functions returning the next record, and what
    the panel renders as functions of the record. */
module GlitchControlPanel {
  import opened Canvas
  import opened GlitchTypes
  import GlitchPreviewCanvas

  datatype ControlState = ControlState(
    feedbackLoop: bool,
    lucidity: real,
    fractalizationDepth: int,
    colorPhase: int,
    asciiMode: AsciiMode,
    isMinimized: bool)

  /** The initial values of the six `useState` hooks. */
  function Initial(): ControlState
  {
    ControlState(false, 0.75, 3, 180, Off, false)
  }

  /** `getSystemState`: stable is checked FIRST, so a calm, lucid panel is
      stable whatever the depth; chaos comes next and transition last. */
  function GetSystemState(s: ControlState): (r: SystemState)
    ensures r == Stable <==> !s.feedbackLoop && s.lucidity > 0.6
    ensures r == Chaos <==>
      (s.feedbackLoop || s.lucidity < 0.3 || s.fractalizationDepth > 6) && !(!s.feedbackLoop && s.lucidity > 0.6)
    ensures r == Transition <==> !s.feedbackLoop && 0.3 <= s.lucidity <= 0.6 && s.fractalizationDepth <= 6
  {
    if !s.feedbackLoop && s.lucidity > 0.6 then Stable
    else if s.feedbackLoop || s.lucidity < 0.3 || s.fractalizationDepth > 6 then Chaos
    else Transition
  }

  /** The panel starts out stable. */
  lemma InitialIsStable()
    ensures GetSystemState(Initial()) == Stable
  {
  }

  // ---- the controls ----

  /** The feedback switch's `onCheckedChange`. */
  function SetFeedbackLoop(s: ControlState, checked: bool): ControlState
  {
    s.(feedbackLoop := checked)
  }

  /** The lucidity slider's `onValueChange`: the thumb position over 100. */
  function SetLucidityFromSlider(s: ControlState, value: int): ControlState
  {
    s.(lucidity := value as real / 100.0)
  }

  /** The lucidity slider's `value`: the lucidity times 100. */
  function LuciditySliderValue(s: ControlState): real
  {
    s.lucidity * 100.0
  }

  /** The depth slider's `onValueChange`. */
  function SetDepth(s: ControlState, value: int): ControlState
  {
    s.(fractalizationDepth := value)
  }

  /** The colour slider's `onValueChange`. */
  function SetColorPhase(s: ControlState, value: int): ControlState
  {
    s.(colorPhase := value)
  }

  /** A mode button's `onClick`. */
  function SelectMode(s: ControlState, mode: AsciiMode): ControlState
  {
    s.(asciiMode := mode)
  }

  /** The minimize button's `onClick`. */
  function ToggleMinimized(s: ControlState): ControlState
  {
    s.(isMinimized := !s.isMinimized)
  }

  /** The values a slider with `min`, `max` and `step` can report: `min`,
      then one step at a time up to `max` inclusive. */
  function SliderValues(min: int, max: int, step: nat): seq<int>
    requires step > 0
  {
    StepsFrom(min, step, max + 1)
  }

  /** Lucidity: the slider reports 0 to 100 in steps of 1; a reported value
      is stored as a lucidity in [0, 1] and shown again at the same thumb
      position, and the initial lucidity sits on a step. */
  lemma LuciditySliderRoundTrip(s: ControlState, value: int)
    requires value in SliderValues(0, 100, 1)
    ensures 0.0 <= SetLucidityFromSlider(s, value).lucidity <= 1.0
    ensures LuciditySliderValue(SetLucidityFromSlider(s, value)) == value as real
    ensures SetLucidityFromSlider(s, 75) == s.(lucidity := Initial().lucidity)
  {
    StepsFromMembers(0, 1, 101, value);
  }

  /** A slider reports `max` itself exactly when `max` is a whole number of
      steps above `min`, and otherwise exactly the on-step values in between. */
  lemma SliderMembers(min: int, max: int, step: nat, v: int)
    requires step > 0
    ensures v in SliderValues(min, max, step) <==> min <= v <= max && (v - min) % step == 0
  {
    StepsFromMembers(min, step, max + 1, v);
  }

  /** Depth: exactly the integers 1 to 9. */
  lemma DepthSliderRange(depth: int)
    ensures depth in SliderValues(1, 9, 1) <==> 1 <= depth <= 9
  {
    SliderMembers(1, 9, 1, depth);
  }

  /** Colour phase: exactly the multiples of 5 from 0 to 360, so 360 itself,
      a full turn, is reachable. */
  lemma PhaseSliderRange(phase: int)
    ensures phase in SliderValues(0, 360, 5) <==> 0 <= phase <= 360 && phase % 5 == 0
    ensures 360 in SliderValues(0, 360, 5)
  {
    SliderMembers(0, 360, 5, phase);
    SliderMembers(0, 360, 5, 360);
  }

  /** Only the switch, the lucidity slider and the depth slider can change
      the system state; the colour slider, the mode buttons and the
      minimize button never do, and two minimize clicks restore the panel. */
  lemma OtherControlsKeepState(s: ControlState, phase: int, mode: AsciiMode)
    ensures GetSystemState(SetColorPhase(s, phase)) == GetSystemState(s)
    ensures GetSystemState(SelectMode(s, mode)) == GetSystemState(s)
    ensures GetSystemState(ToggleMinimized(s)) == GetSystemState(s)
    ensures ToggleMinimized(ToggleMinimized(s)) == s
  {
  }

  /** Turning the feedback switch on always puts the system in chaos, and
      turning it off makes a panel with lucidity above 0.6 stable again;
      the other five values are left as they were. */
  lemma FeedbackSwitch(s: ControlState)
    ensures GetSystemState(SetFeedbackLoop(s, true)) == Chaos
    ensures s.lucidity > 0.6 ==> GetSystemState(SetFeedbackLoop(s, false)) == Stable
    ensures SetFeedbackLoop(s, s.feedbackLoop) == s
    ensures SetFeedbackLoop(SetFeedbackLoop(s, true), false) == s.(feedbackLoop := false)
  {
  }

  // ---- what the panel renders ----

  /** The status LED's background class and glow. */
  datatype LedStyle = LedStyle(bg: string, shadow: string)

  /** The `stateColors` map. */
  function StateColors(st: SystemState): LedStyle
  {
    match st
    case Stable => LedStyle("bg-green-500", "0 0 12px rgba(34, 197, 94, 0.8)")
    case Transition => LedStyle("bg-amber-500", "0 0 12px rgba(245, 158, 11, 0.8)")
    case Chaos => LedStyle("bg-red-500", "0 0 12px rgba(239, 68, 68, 0.8)")
  }

  /** The class of the state text under the controls. */
  function LabelClass(st: SystemState): string
  {
    if st == Stable then "text-green-400"
    else if st == Transition then "text-amber-400"
    else "text-red-400"
  }

  /** The text shadow of the state text. */
  function LabelShadow(st: SystemState): string
  {
    if st == Chaos then "0 0 8px rgba(239, 68, 68, 0.8)" else "none"
  }

  /** The colour family each label is shown in. */
  function Family(st: SystemState): string
  {
    match st
    case Stable => "green"
    case Transition => "amber"
    case Chaos => "red"
  }

  /** Both colour maps are total over the three labels and agree on the
      family: stable is green, transition amber and chaos red, in the LED
      and in the text; different labels get different LEDs, and only chaos
      glows in the text. */
  lemma ColorMapsAgree(st: SystemState, other: SystemState)
    ensures StateColors(st).bg == "bg-" + Family(st) + "-500"
    ensures LabelClass(st) == "text-" + Family(st) + "-400"
    ensures st != other ==> StateColors(st) != StateColors(other)
    ensures LabelShadow(st) != "none" <==> st == Chaos
  {
    match st
    case Stable =>
      assert "bg-" + Family(st) + "-500" == "bg-green-500";
      assert "text-" + Family(st) + "-400" == "text-green-400";
    case Transition =>
      assert "bg-" + Family(st) + "-500" == "bg-amber-500";
      assert "text-" + Family(st) + "-400" == "text-amber-400";
    case Chaos =>
      assert "bg-" + Family(st) + "-500" == "bg-red-500";
      assert "text-" + Family(st) + "-400" == "text-red-400";
  }

  /** One ASCII-mode button as rendered. */
  datatype ModeButton = ModeButton(mode: AsciiMode, active: bool, variant: string)

  /** The three mode buttons with their `data-active` flag and variant. */
  function ModeButtons(s: ControlState): (bs: seq<ModeButton>)
    ensures |bs| == |Modes|
    ensures forall k :: 0 <= k < |bs| ==>
      bs[k].mode == Modes[k] && (bs[k].active <==> bs[k].mode == s.asciiMode) &&
      (bs[k].variant == "default" <==> bs[k].active)
    ensures exists k :: 0 <= k < |bs| && bs[k].active
    ensures forall j, k :: 0 <= j < |bs| && 0 <= k < |bs| && bs[j].active && bs[k].active ==> j == k
  {
    var selected := if s.asciiMode == Off then 0 else if s.asciiMode == Low then 1 else 2;
    assert Modes[selected] == s.asciiMode;
    seq(|Modes|, k requires 0 <= k < |Modes| =>
      ModeButton(Modes[k], s.asciiMode == Modes[k], if s.asciiMode == Modes[k] then "default" else "outline"))
  }

  /** Exactly one button is active: the selected mode's, which alone has the
      filled variant. */
  lemma OneActiveButton(s: ControlState)
    ensures forall k :: 0 <= k < |Modes| ==> ModeButtons(s)[k].mode == Modes[k]
    ensures forall k :: 0 <= k < |Modes| ==> ModeButtons(s)[k].active == ActiveFlags(s.asciiMode)[k]
    ensures CountTrue(ActiveFlags(s.asciiMode)) == 1
    ensures forall k :: 0 <= k < |Modes| ==>
      (ModeButtons(s)[k].active <==> Modes[k] == s.asciiMode) &&
      (ModeButtons(s)[k].variant == "default" <==> ModeButtons(s)[k].active)
  {
    ExactlyOneActive(s.asciiMode);
  }

  /** The colour indicator under the colour slider. At the slider's last
      step the first stop is 360, unreduced, while the second is 60. */
  lemma IndicatorAtFullTurn()
    ensures Indicator(SetColorPhase(Initial(), 360).colorPhase) == Gradient(360, 60, 120, 360)
  {
  }

  /** The header button glyph, the panel width, the feedback switch's
      `data-state`, and whether the controls (and with them the preview
      canvas) are mounted. */
  datatype PanelLayout = PanelLayout(buttonGlyph: string, width: string, switchState: string, bodyShown: bool)

  function Layout(s: ControlState): PanelLayout
  {
    PanelLayout(if s.isMinimized then "□" else "−", if s.isMinimized then "auto" else "320px",
          if s.feedbackLoop then "on" else "off", !s.isMinimized)
  }

  /** The props the mounted preview canvas receives: the five parameters,
      or no preview at all while the panel is minimized. */
  function PreviewProps(s: ControlState): Option<GlitchPreviewCanvas.Props>
  {
    if s.isMinimized then None
    else Some(GlitchPreviewCanvas.Props(s.feedbackLoop, s.lucidity, s.fractalizationDepth, s.colorPhase, s.asciiMode))
  }

  /** The preview is mounted exactly while the controls are shown and every
      minimize click mounts or unmounts it; a control change other than
      minimizing hands the preview new props without remounting it. */
  lemma MinimizeUnmountsPreview(s: ControlState, mode: AsciiMode)
    ensures PreviewProps(s).Some? <==> Layout(s).bodyShown
    ensures PreviewProps(ToggleMinimized(s)).Some? <==> !PreviewProps(s).Some?
    ensures PreviewProps(s).Some? ==>
      PreviewProps(SelectMode(s, mode)).Some? &&
      PreviewProps(SelectMode(s, mode)).value == PreviewProps(s).value.(asciiMode := mode)
  {
  }
}
