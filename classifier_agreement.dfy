/** The two rule tables side by side: the vanilla script checks chaos first,
    the React panel checks stable first. */
module ClassifierAgreement {
  import opened GlitchTypes
  import GlitchPanel
  import opened GlitchControlPanel

  /** The region where the two tables overlap: no feedback, lucidity above
      0.6 and depth above 6. */
  predicate Overlap(s: ControlState)
  {
    !s.feedbackLoop && s.lucidity > 0.6 && s.fractalizationDepth > 6
  }

  /** The two classifiers give the same label on every input outside the
      overlap, and inside it the React panel says stable where the script
      says chaos. */
  lemma ClassifiersAgreeOutsideOverlap(s: ControlState)
    ensures GetSystemState(s) == GlitchPanel.Classify(s.feedbackLoop, s.lucidity, s.fractalizationDepth)
        <==> !Overlap(s)
    ensures Overlap(s) ==>
      GetSystemState(s) == Stable &&
      GlitchPanel.Classify(s.feedbackLoop, s.lucidity, s.fractalizationDepth) == Chaos
  {
  }

  /** The overlap is reachable from the panel's initial state with the depth
      slider alone: moving it to 7 keeps the React panel stable while the
      script's rule would say chaos. */
  lemma OverlapReachable()
    ensures var s := SetDepth(Initial(), 7);
      7 in SliderValues(1, 9, 1) && Overlap(s) &&
      GetSystemState(s) == Stable &&
      GlitchPanel.Classify(s.feedbackLoop, s.lucidity, s.fractalizationDepth) == Chaos
  {
    DepthSliderRange(7);
  }
}
