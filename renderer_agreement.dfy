/** The vanilla canvas animation and the React preview side by side: how
    fast their fractal layers turn, and how dense their ASCII grids are. */
module RendererAgreement {
  import opened Canvas
  import opened GlitchTypes
  import GlitchPanel
  import opened GlitchPreviewCanvas

  /** Up to five layers, the vanilla panel turns shape `k` once per frame by
      its speed times the spin, which is exactly what the preview turns layer
      `k` by from one frame to the next; shapes beyond the depth stay put. */
  lemma {:induction false} TurnRatesAgree(shapes: seq<GlitchPanel.Shape>, depth: nat, k: nat, frame: int, feedbackLoop: bool)
    requires |shapes| == 5 && 1 <= depth <= 5 && k < 5
    requires forall i :: 0 <= i < 5 ==> shapes[i].rotationSpeed == (i + 1) as real / 100.0
    ensures k < depth ==>
      GlitchPanel.Rotated(shapes, depth, Spin(feedbackLoop))[k].rotation - shapes[k].rotation ==
      Rotation(frame + 1, k, feedbackLoop) - Rotation(frame, k, feedbackLoop)
    ensures depth <= k ==> GlitchPanel.Rotated(shapes, depth, Spin(feedbackLoop))[k] == shapes[k]
  {
    GlitchPanel.BumpsRounds(k, 0, depth, 5);
    RotationRate(frame, k, feedbackLoop);
    assert GlitchPanel.Turns(1, shapes[k].rotationSpeed * Spin(feedbackLoop)) == shapes[k].rotationSpeed * Spin(feedbackLoop);
  }

  /** From six layers on the vanilla loop comes back to the first shape, so
      it turns twice per frame, twice as fast as the preview's first layer. */
  lemma {:induction false} DeepFramesTurnTwice(shapes: seq<GlitchPanel.Shape>, depth: nat, spin: real)
    requires |shapes| == 5 && 6 <= depth <= 10
    ensures GlitchPanel.Rotated(shapes, depth, spin)[0].rotation - shapes[0].rotation ==
      2.0 * (shapes[0].rotationSpeed * spin)
  {
    GlitchPanel.BumpsRounds(0, 1, depth - 5, 5);
    assert GlitchPanel.Turns(2, shapes[0].rotationSpeed * spin) == 2.0 * (shapes[0].rotationSpeed * spin);
  }

  /** On the preview's 280 by 200 canvas, every cell of the vanilla overlay
      for a mode is also a cell of the preview's overlay for that mode, whose
      grid is twice as fine: the preview has cells the vanilla grid lacks. */
  lemma PreviewGridIsFiner(mode: AsciiMode, c: Cell)
    requires mode != Off
    ensures GlitchPanel.AsciiOverlay(mode, Surface(Width, Height)).Some?
    ensures AsciiOf(mode).Some?
    ensures AsciiOf(mode).value.step * 2 == GlitchPanel.AsciiOverlay(mode, Surface(Width, Height)).value.step
    ensures c in GlitchPanel.AsciiOverlay(mode, Surface(Width, Height)).value.cells ==> c in AsciiOf(mode).value.cells
    ensures var half := Cell(AsciiOf(mode).value.step, 0);
      half in AsciiOf(mode).value.cells && half !in GlitchPanel.AsciiOverlay(mode, Surface(Width, Height)).value.cells
  {
    var fine := if mode == Low then 10 else 5;
    var half := Cell(fine, 0);
    GridMembers(fine, Width, Height, c);
    GridMembers(2 * fine, Width, Height, c);
    GridMembers(fine, Width, Height, half);
    GridMembers(2 * fine, Width, Height, half);
    if c.x % (2 * fine) == 0 {
      assert c.x == (2 * fine) * (c.x / (2 * fine));
      assert c.x == fine * (2 * (c.x / (2 * fine)));
      DivModUnique(c.x, fine, 2 * (c.x / (2 * fine)), 0);
    }
    if c.y % (2 * fine) == 0 {
      assert c.y == (2 * fine) * (c.y / (2 * fine));
      assert c.y == fine * (2 * (c.y / (2 * fine)));
      DivModUnique(c.y, fine, 2 * (c.y / (2 * fine)), 0);
    }
  }
}
