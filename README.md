# QAI-UFT glitch panel and canvas views, modelled in Dafny

QAI-UFT is a decorative single-page UI whose "quantum" visuals come from a
few parameter-driven canvas animations. This project models what those
animations and control panels decide. Each frame is a list of draw commands
rather than pixels.

It covers five parts:

- **The vanilla glitch control panel** (`src/glitch-panel.js`).
  - A module-level parameter record that control handlers update one field at a time.
  - The status classifier (chaos first, then stable, then transition) and the label it writes into the page.
  - The colour indicator and the mode buttons.
  - The `glitch-panel-update` event detail.
  - The programmatic `setState` (an `Object.assign` merge) and `getState`.
  - A canvas animation that keeps five shapes and advances their rotations in place.
- **The React control panel** (`src/components/GlitchControlPanel.tsx`).
  - It holds the same six parameters as immutable hook values.
  - Its classifier checks stable first.
  - Also modelled: the slider mappings, the mode buttons, the LED and label colour maps, and the minimized layout.
- **The React preview canvas** (`src/components/GlitchPreviewCanvas.tsx`).
  - Its frame counter lives in a ref.
  - Its effect draws one frame at once, then one per animation callback.
  - Each layer is a seven-point hexagon path.
  - Its ASCII grid is finer than the vanilla one.
- **The ternary neural network diagram** (`src/components/NeuralNetworkDiagram.tsx`).
  - A `positions` table is filled by nested loops.
  - All-to-all connections join neighbouring layers.
  - Neuron states cycle with time and position.
  - Layers are labelled Input / Hidden l / Output.
- **The quantum transport view** (`src/components/TransportVisualization.tsx`).
  - There are `3n` particles, and particle `i` is in state `i % 3`.
  - An entanglement line runs from every third particle to its predecessor.
  - All colours share the coherence alpha.

Modules, one per file:

- `Canvas`: shared drawing vocabulary.
  - JavaScript's truncating `%`.
  - The values of a `for (v = from; v < bound; v += step)` loop.
  - Row-major grids of character cells.
- `GlitchTypes`: labels, modes, mode buttons and hue arithmetic shared by both panels.
- `GlitchPanel`, `GlitchControlPanel`, `GlitchPreviewCanvas`, `NeuralNetworkDiagram`, `TransportVisualization`: the five sources above.
- `ClassifierAgreement` and `RendererAgreement`: compare the two panels' rule tables, and the two renderers' rotation rates and grids.

How the source's dynamics become Dafny:

- Imperative code becomes classes: `GlitchPanel.Panel`, `GlitchPreviewCanvas.Preview`, `NeuralNetworkDiagram.Diagram` and `TransportVisualization.Transport`.
- Each drawing loop is a method proved against a specification function of its inputs.
- The React panel is pure functions over a record.
- Lucidity is an exact `real`.
- Randomness becomes inputs. The glitch roll is a boolean parameter. The ASCII overlay is modelled as its candidate cells; which cells get a glyph, and which glyph, is not modelled.
- Animation time is a tick count.
  - In the diagram one tick is 0.03 time units; in the transport view it is 0.02.
  - Each tick advances only when the view is simulating.
  - The clock starts at zero whenever the effect runs again.

Behaviour of the code worth knowing:

- **Colour-phase range.** The React colour slider reports multiples of 5 from 0 to 360 inclusive, so 360 is a reachable phase. The first indicator stop then shows 360 unreduced while the second shows 60. See `PhaseSliderRange` and `IndicatorAtFullTurn`.
- **Frame-counter restarts.** The preview's frame counter is not reset when the effect restarts after a prop change. It restarts only when the component is mounted again, which happens when the panel is un-minimized. The vanilla `frameCount` is never reset.
- **Frame numbering.** Both counters are incremented at the start of a frame, so the first frame drawn is frame 1.
- **Rotation speed.** In both renderers layer rotation depends on the feedback flag but not on lucidity. Of the layer's motion, only the distortion amplitude, `(1 - lucidity) * 20` under feedback and 0 without it, depends on lucidity. Lucidity also sets the stroke and waveform alphas and the chance that an ASCII candidate cell gets a glyph.
- **ASCII grid steps.** The vanilla script uses 20 pixels for LOW and 10 for HIGH. The preview uses 10 and 5.
- **What broadcasts.** `setState` and `toggleMinimize` broadcast nothing.
- **What `setState` refreshes.** It re-runs the classifier and repaints the colour indicator. It does not refresh the mode buttons, the feedback switch or the minimized class, so after `setState({asciiMode})` the buttons still show the old mode. See `GlitchPanel.SetStateLeavesButtons`.
- **Stopping the vanilla loop.** The vanilla animation is never cancelled.
- **The two classifiers.** They disagree on exactly one region: feedback off, lucidity above 0.6 and depth above 6. The React panel says stable there, and the vanilla script says chaos. The React depth slider reaches that region by itself.

## Model

| member | source | states |
|---|---|---|
| Canvas.JsRem | src/glitch-panel.js:190 | JavaScript's `%` for a positive modulus: the result is strictly between `-m` and `m`, has the sign of the dividend and is congruent to it |
| Canvas.StepsFromMembers | src/glitch-panel.js:228 | a `for (v = from; v < bound; v += step)` loop visits exactly the values in `[from, bound)` a whole number of steps above `from` |
| Canvas.StepCountBound | src/glitch-panel.js:228 | the loop runs its n-th iteration exactly when `from + n * step` is still below the bound |
| Canvas.RowsMembers | src/glitch-panel.js:243-244 | the row-major cells contain exactly the pairs of a visited row and a visited column |
| Canvas.GridMembers | src/glitch-panel.js:243-244 | a grid's cells are exactly the points on multiples of the step from 0 up to but not including the width and height |
| Canvas.Columns | src/glitch-panel.js:228 | the waveform loop's columns are the loop values from 0 by the step below the width |
| Canvas.RowCells | src/glitch-panel.js:244-250 | the inner overlay loop visits one cell per column of its row, left to right |
| Canvas.GridCells | src/glitch-panel.js:243-250 | the nested overlay loops visit the cells row by row, and a cell is visited iff both coordinates are multiples of the step below the width and height |
| GlitchTypes.ExactlyOneActive | src/glitch-panel.js:107-113 | after selecting a mode, exactly one of the three buttons is active, the one whose `data-mode` is that mode |
| GlitchTypes.BaseHueInverts | src/glitch-panel.js:190 | for a phase in [0, 360), the base hue is in [0, 360); under feedback it differs from the phase by 180 modulo 360, and inverting twice gives the phase back |
| GlitchTypes.LayerHue | src/glitch-panel.js:214 | a layer's stroke hue lies in [0, 360) for a non-negative base hue and layer |
| GlitchTypes.LayerHuesDistinct | src/glitch-panel.js:214 | two layers get the same hue iff their indices differ by a multiple of 9, so all nine layers the depth slider allows are distinct |
| GlitchTypes.IndicatorStops | src/glitch-panel.js:119-125 | the 2nd and 3rd gradient stops are reduced into [0, 360) and lie 60 degrees apart round the circle; the 1st stop and the glow keep the hue unreduced |
| GlitchPanel.Classify | src/glitch-panel.js:132-138 | chaos iff feedback or lucidity < 0.3 or depth > 6; stable iff no feedback, lucidity > 0.6 and depth <= 6; transition iff no feedback, lucidity in [0.3, 0.6] and depth <= 6 |
| GlitchPanel.Merge | src/glitch-panel.js:331 | `Object.assign`: each key present in the patch takes the patch's value, and every absent key keeps the record's |
| GlitchPanel.MergeLaws | src/glitch-panel.js:330-331 | an empty patch changes nothing, merging a patch twice equals merging it once, two merges equal one merge of the combined patch, and a full patch replaces the record |
| GlitchPanel.NewShapesDiffer | src/glitch-panel.js:168-176 | the five initial shapes strictly increase in size and speed, and two share a kind iff their indices are 3 apart |
| GlitchPanel.BumpsRounds | src/glitch-panel.js:197-198 | after `q` full rounds over `n` shapes and `r` more layers, shape `k` has been picked `q` times, plus once if `k < r` |
| GlitchPanel.BumpsUntouched | src/glitch-panel.js:197-198 | a frame with fewer layers than `k + 1` never picks shape `k` |
| GlitchPanel.BumpsClosed | src/glitch-panel.js:197-198 | in a frame of `d` layers over `n` shapes, shape `k` is picked `d / n` times, plus once if `k < d % n` |
| GlitchPanel.Rotated | src/glitch-panel.js:197-221 | after a frame of `d` layers over `n` shapes, shape `k` has turned by its speed times the spin `d / n` times, plus once more if `k < d % n`; the number of shapes is unchanged |
| GlitchPanel.RotatedStep | src/glitch-panel.js:198-221 | bumping the shape that layer `i` picks advances the rotated shapes from `i` layers to `i + 1` |
| GlitchPanel.Panel.Load | src/glitch-panel.js:7-14 | at load the record has its declared values, nothing has been written to the page, the frame counter is 0 and there are no shapes |
| GlitchPanel.Panel.ContentLoaded | src/glitch-panel.js:20-27 | after `DOMContentLoaded` the LED and indicator show the record and OFF is selected; a first frame is drawn iff a canvas with a 2D context exists, and then the frame counter rises by one, the five new shapes are left rotated as one frame of the depth turns them, and the frame's layers are those of the five new shapes |
| GlitchPanel.Panel.ToggleMinimize | src/glitch-panel.js:86-98 | negates `isMinimized`, sets the panel's minimized state to match and changes nothing else |
| GlitchPanel.Panel.UpdateFeedbackState | src/glitch-panel.js:101-104 | the switch's `data-state` shows the feedback flag, nothing else in the page changes |
| GlitchPanel.Panel.SetAsciiMode | src/glitch-panel.js:107-113 | the mode is stored and the buttons' active flags become exactly those of that mode |
| GlitchPanel.Panel.UpdateColorIndicator | src/glitch-panel.js:116-126 | the indicator is repainted from the current colour phase |
| GlitchPanel.Panel.UpdateSystemState | src/glitch-panel.js:129-153 | returns the classifier's label for the record and shows it in the LED and state display |
| GlitchPanel.Panel.Broadcast | src/glitch-panel.js:289-299 | the event detail carries the parameter name, its value, the timestamp and a copy of the whole record |
| GlitchPanel.Panel.OnFeedbackChange | src/glitch-panel.js:37-42 | stores the flag, updates the switch and the LED, keeps a synced page synced and broadcasts `feedback-loop` with the new record |
| GlitchPanel.Panel.OnLucidityInput | src/glitch-panel.js:46-51 | stores the lucidity, reclassifies, keeps a synced page synced and broadcasts `lucidity` |
| GlitchPanel.Panel.OnDepthInput | src/glitch-panel.js:55-60 | stores the depth, reclassifies, keeps a synced page synced and broadcasts `fractal-depth` |
| GlitchPanel.Panel.OnColorPhaseInput | src/glitch-panel.js:64-69 | stores the phase and repaints only the indicator, leaving the LED as it was, and broadcasts `color-phase` |
| GlitchPanel.Panel.OnModeClick | src/glitch-panel.js:73-78 | selects the mode and its button, leaves the LED as it was, and broadcasts `ascii-mode` |
| GlitchPanel.Panel.SetState | src/glitch-panel.js:330-334 | the record becomes the merge of old record and patch; the LED and indicator show the new record; buttons, switch, minimized class and canvas are untouched |
| GlitchPanel.Panel.GetState | src/glitch-panel.js:335 | returns a copy equal to the record |
| GlitchPanel.Panel.InitCanvas | src/glitch-panel.js:160-181 | without a canvas or 2D context nothing changes; otherwise five new shapes (size `40 + 10i`, rotation 0, speed `(i + 1) / 100`) are appended and one frame is drawn from them |
| GlitchPanel.LayerWobble | src/glitch-panel.js:188-216 | a layer's distortion (line 207) is 0 without feedback, and under feedback strictly falls as lucidity rises and stays in [0, 20] for lucidity in [0, 1]; the fractal intensity `depth / 9` passed to `drawShape` is in (0, 1] for depths 1 to 9 |
| GlitchPanel.Panel.Animate | src/glitch-panel.js:183-262 | the frame counter rises by exactly one; layer `i` draws shape `i % n` at the rotation it reached so far and each shape turns once per layer that picked it; fade, wave hue and alpha, waveform amplitudes 15 (30 under feedback) and `10 * depth / 9`, wave columns, the overlay for the mode, and the glitch only under feedback |
| GlitchPanel.Panel.DrawLayers | src/glitch-panel.js:197-222 | the layer loop leaves the shapes rotated as `Rotated` says and draws `depth` layers with their hues, scales, alphas, distortion and intensity |
| GlitchPanel.Panel.DrawLayer | src/glitch-panel.js:197-221 | one pass of the layer loop draws layer `i` from the shape it picks, at the rotation that shape reached after `i` layers, and advances the shapes to their state after `i + 1` layers |
| GlitchPanel.ToggleTwice | src/glitch-panel.js:86-87 | two minimize toggles give the record back |
| GlitchPanel.SetStateLeavesButtons | src/glitch-panel.js:330-334 | after `setState({asciiMode: 'HIGH'})` on a page showing OFF, the LED is in step but the buttons no longer show the selected mode |
| GlitchControlPanel.GetSystemState | src/components/GlitchControlPanel.tsx:20-24 | stable iff no feedback and lucidity > 0.6, whatever the depth; chaos iff otherwise feedback, lucidity < 0.3 or depth > 6; transition in every remaining case |
| GlitchControlPanel.InitialIsStable | src/components/GlitchControlPanel.tsx:12-17 | the default panel state (no feedback, lucidity 0.75, depth 3) is stable |
| GlitchControlPanel.LuciditySliderRoundTrip | src/components/GlitchControlPanel.tsx:114-119 | a slider value `v` in 0..100 is stored as a lucidity in [0, 1] that shows the thumb at `v` again; the default 0.75 sits on step 75 |
| GlitchControlPanel.SliderMembers | src/components/GlitchControlPanel.tsx:135-140 | a slider reports exactly the values from `min` to `max` inclusive, a whole number of steps above `min` |
| GlitchControlPanel.DepthSliderRange | src/components/GlitchControlPanel.tsx:135-140 | the depth slider reports exactly the integers 1 to 9 |
| GlitchControlPanel.PhaseSliderRange | src/components/GlitchControlPanel.tsx:156-161 | the colour slider reports exactly the multiples of 5 from 0 to 360, 360 included |
| GlitchControlPanel.FeedbackSwitch | src/components/GlitchControlPanel.tsx:20-24 | turning the switch (line 98) on always gives chaos, turning it off gives stable when lucidity is above 0.6, and only the feedback flag changes |
| GlitchControlPanel.OtherControlsKeepState | src/components/GlitchControlPanel.tsx:20-24 | the colour slider, the mode buttons and the minimize button never change the system state, and two minimize clicks restore the panel |
| GlitchControlPanel.ColorMapsAgree | src/components/GlitchControlPanel.tsx:28-32 | the LED map (and the label classes of lines 206-212) give stable green, transition amber and chaos red, in the LED and the text alike; different labels get different LEDs and only chaos glows in the text |
| GlitchControlPanel.ModeButtons | src/components/GlitchControlPanel.tsx:181-193 | one button per mode, in the order OFF, LOW, HIGH; a button is active iff its mode is the selected one, and filled iff active; exactly one button is active |
| GlitchControlPanel.OneActiveButton | src/components/GlitchControlPanel.tsx:181-193 | button `k` is for mode `k` and is active (and filled) iff that mode is selected; exactly one is active |
| GlitchControlPanel.IndicatorAtFullTurn | src/components/GlitchControlPanel.tsx:166-171 | at phase 360 the indicator's first stop and glow stay 360 while the others are 60 and 120 |
| GlitchControlPanel.MinimizeUnmountsPreview | src/components/GlitchControlPanel.tsx:69-83 | the preview is mounted iff the controls are shown, each minimize click mounts or unmounts it, and a mode click only changes its `asciiMode` prop |
| ClassifierAgreement.ClassifiersAgreeOutsideOverlap | src/components/GlitchControlPanel.tsx:21-23 | the React and vanilla rule tables (src/glitch-panel.js:132-135) agree iff not (no feedback, lucidity > 0.6 and depth > 6); inside that region React says stable and vanilla chaos |
| ClassifierAgreement.OverlapReachable | src/components/GlitchControlPanel.tsx:135-140 | from the default state, moving the depth slider to 7 reaches the region where the two tables disagree |
| GlitchPreviewCanvas.OutlineIsOneStroke | src/components/GlitchPreviewCanvas.tsx:72-80 | the hexagon path has `sides + 1` = 7 points, the only move is to vertex 0, it visits the vertices in order and ends on vertex `sides`, a full turn round |
| GlitchPreviewCanvas.PolygonPath | src/components/GlitchPreviewCanvas.tsx:74-80 | the vertex loop builds exactly that path |
| GlitchPreviewCanvas.FrameLayers | src/components/GlitchPreviewCanvas.tsx:49-68 | a frame draws one hexagon per unit of depth, layer `i` with radius `40 + 10i`, scale `1 - i/10`, hue `(baseHue + 40i) % 360` and the rotation of its frame number |
| GlitchPreviewCanvas.FrameWave | src/components/GlitchPreviewCanvas.tsx:90 | the waveform is sampled exactly at the multiples of 3 below the canvas width |
| GlitchPreviewCanvas.FrameAscii | src/components/GlitchPreviewCanvas.tsx:100-106 | the overlay is present iff the mode is not OFF; its step is 10 for LOW and 5 for HIGH and its candidate cells are exactly the grid points of that step |
| GlitchPreviewCanvas.FrameCalm | src/components/GlitchPreviewCanvas.tsx:116 | without feedback no band is displaced, and no layer wobbles (the distortion of line 61 is zero) |
| GlitchPreviewCanvas.RotationRate | src/components/GlitchPreviewCanvas.tsx:51 | rotation is a function of the frame number: layer `i` turns by `(i + 1) / 100` times the spin per frame, starts at 0, and turns twice as fast under feedback |
| GlitchPreviewCanvas.DrawAscii | src/components/GlitchPreviewCanvas.tsx:100-106 | the overlay loops give no overlay when OFF and otherwise the row-by-row grid of the mode's step with its alpha, as the frame specification has it |
| GlitchPreviewCanvas.Preview.Mount | src/components/GlitchPreviewCanvas.tsx:21 | a mounted preview's counter starts at 0 with nothing scheduled |
| GlitchPreviewCanvas.Preview.Draw | src/components/GlitchPreviewCanvas.tsx:32-124 | `draw` raises the counter by exactly one and draws the frame with that number for the effect's props |
| GlitchPreviewCanvas.Preview.DrawLayers | src/components/GlitchPreviewCanvas.tsx:49-84 | the layer loop draws one hexagon per unit of depth, layer `i` being the specification's layer `i` |
| GlitchPreviewCanvas.Preview.RunEffect | src/components/GlitchPreviewCanvas.tsx:23-126 | without a canvas or context nothing is drawn or scheduled; otherwise the next frame number is drawn at once with the new props and another frame is scheduled |
| GlitchPreviewCanvas.Preview.Fire | src/components/GlitchPreviewCanvas.tsx:123 | an animation callback draws the next frame with the effect's props |
| GlitchPreviewCanvas.Preview.Cleanup | src/components/GlitchPreviewCanvas.tsx:128-130 | the cleanup leaves no callback pending |
| GlitchPreviewCanvas.PropsChangeKeepsCounting | src/components/GlitchPreviewCanvas.tsx:21-34 | after two frames, a prop change draws frame 3 with the new props (the ref is not reset), while a new mount starts at frame 1 |
| GlitchPreviewCanvas.CanvasStyle | src/components/GlitchPreviewCanvas.tsx:141-144 | the CSS filter and glow are set iff the feedback loop is on |
| RendererAgreement.TurnRatesAgree | src/glitch-panel.js:197-221 | at depths 1 to 5 the vanilla shape `k` turns once per frame by exactly what the preview's layer `k` turns per frame (src/components/GlitchPreviewCanvas.tsx:51); shapes beyond the depth stay put |
| RendererAgreement.DeepFramesTurnTwice | src/glitch-panel.js:197-198 | for depths 6 to 10, the vanilla first shape turns twice per frame |
| RendererAgreement.PreviewGridIsFiner | src/components/GlitchPreviewCanvas.tsx:101 | on a 280 by 200 canvas the preview's step is half the vanilla step (src/glitch-panel.js:239), every vanilla candidate cell is a preview cell, and the preview has cells the vanilla grid lacks |
| NeuralNetworkDiagram.StateOf | src/components/NeuralNetworkDiagram.tsx:60 | a neuron's state is always 0, 1 or 2, so it always indexes the colour lists |
| NeuralNetworkDiagram.StateCycles | src/components/NeuralNetworkDiagram.tsx:60 | in exact arithmetic the state at `ticks` is `(floor(3 * ticks / 10) + l + n) % 3` |
| NeuralNetworkDiagram.StateIdle | src/components/NeuralNetworkDiagram.tsx:60 | at time 0, and so all the time the diagram is idle, the state is `(l + n) % 3` |
| NeuralNetworkDiagram.StateAlongLayer | src/components/NeuralNetworkDiagram.tsx:60 | along a layer the state steps up by one modulo 3 from neuron to neuron |
| NeuralNetworkDiagram.StateAcrossLayers | src/components/NeuralNetworkDiagram.tsx:60 | neuron `n` of the next layer is in the state of neuron `n + 1` of this one |
| NeuralNetworkDiagram.StatePeriod | src/components/NeuralNetworkDiagram.tsx:60 | the state pattern repeats every 10 ticks |
| NeuralNetworkDiagram.ColumnsInside | src/components/NeuralNetworkDiagram.tsx:47-56 | layer columns lie strictly inside the canvas, ordered left to right |
| NeuralNetworkDiagram.LayerConnsMembers | src/components/NeuralNetworkDiagram.tsx:63-79 | a layer's first `n` neurons draw exactly the lines from them to every next-layer neuron, `n * size` of them, none from the last layer |
| NeuralNetworkDiagram.ConnsBeforeMembers | src/components/NeuralNetworkDiagram.tsx:54-82 | the first `l` layers draw exactly the lines leaving those of them that are not the last layer |
| NeuralNetworkDiagram.ConnsBeforeCount | src/components/NeuralNetworkDiagram.tsx:54-82 | the first `l` layers draw `size * size` lines per non-final layer among them |
| NeuralNetworkDiagram.Connections | src/components/NeuralNetworkDiagram.tsx:63-71 | the lines are exactly one per (non-final layer, neuron, next-layer neuron), `(layers - 1) * size * size` in all, each with the shared activation (0.3 when idle; the simulated sine value is not modelled) |
| NeuralNetworkDiagram.ConnectNeuron | src/components/NeuralNetworkDiagram.tsx:64-79 | the next-layer loop of one neuron draws exactly its specified lines |
| NeuralNetworkDiagram.LayerPass | src/components/NeuralNetworkDiagram.tsx:55-81 | one layer of the first pass fills that layer's row of `positions` and draws its lines |
| NeuralNetworkDiagram.NetworkPass | src/components/NeuralNetworkDiagram.tsx:54-82 | the first pass fills `positions` as the full layers by size table and draws every line in order |
| NeuralNetworkDiagram.GlowMatchesCore | src/components/NeuralNetworkDiagram.tsx:27-37 | each state's glow is its core colour with alpha 0.4 instead of 0.8 |
| NeuralNetworkDiagram.GridStatesInRange | src/components/NeuralNetworkDiagram.tsx:60 | every stored neuron's state indexes the colour lists |
| NeuralNetworkDiagram.NeuronPass | src/components/NeuralNetworkDiagram.tsx:85-116 | the second pass draws each stored neuron from its own entry, in its state's colours, with a ring iff simulating |
| NeuralNetworkDiagram.LabelPass | src/components/NeuralNetworkDiagram.tsx:122-126 | one label per layer, under its column |
| NeuralNetworkDiagram.LabelsInOrder | src/components/NeuralNetworkDiagram.tsx:124 | Input exactly at layer 0, Output exactly at the last layer, Hidden `l` exactly for layers 1 to depth |
| NeuralNetworkDiagram.CaptionMatchesGrid | src/components/NeuralNetworkDiagram.tsx:159 | the caption's totals are the number of layers (`depth + 2`) and neurons per layer in the table |
| NeuralNetworkDiagram.Diagram.Mount | src/components/NeuralNetworkDiagram.tsx:10-11 | a mounted diagram has its clock at 0 and nothing scheduled |
| NeuralNetworkDiagram.Diagram.Draw | src/components/NeuralNetworkDiagram.tsx:39-133 | a frame is the three passes at the current time; the clock advances one tick iff simulating |
| NeuralNetworkDiagram.Diagram.RunEffect | src/components/NeuralNetworkDiagram.tsx:13-35 | without a canvas or context nothing happens; otherwise the clock restarts at 0, the time-0 frame is drawn and another is scheduled |
| NeuralNetworkDiagram.Diagram.Fire | src/components/NeuralNetworkDiagram.tsx:132 | an animation callback draws the frame at the current time |
| NeuralNetworkDiagram.Diagram.Cleanup | src/components/NeuralNetworkDiagram.tsx:137-139 | the cleanup leaves no callback pending |
| NeuralNetworkDiagram.ClockIsEffectLocal | src/components/NeuralNetworkDiagram.tsx:128-140 | idle frames stay at time 0, simulating frames advance, and any prop change restarts the clock at 0 |
| TransportVisualization.StateColors | src/components/TransportVisualization.tsx:32-37 | three state colours that all carry the alpha `coherence / 100`, which lies in [0, 1] for a coherence in 0..100, and whose hues differ pairwise |
| TransportVisualization.CountsAppend | src/components/TransportVisualization.tsx:41-77 | line and per-state particle counts add over consecutive command lists |
| TransportVisualization.ParticleCmdsCounts | src/components/TransportVisualization.tsx:47-76 | particle `i` draws one particle in state `i % 3`, and a line iff `i` is a positive multiple of 3 |
| TransportVisualization.LinesUpTo | src/components/TransportVisualization.tsx:65 | the first `i` particles draw `(i - 1) / 3` lines |
| TransportVisualization.OneMore | src/components/TransportVisualization.tsx:47 | one more particle adds one to its own state's count |
| TransportVisualization.ThreeMore | src/components/TransportVisualization.tsx:47 | three more particles from a multiple of 3 add one to each state |
| TransportVisualization.StatesUpTo | src/components/TransportVisualization.tsx:47 | the first `3k` particles hold `k` of each state |
| TransportVisualization.FrameCounts | src/components/TransportVisualization.tsx:40-67 | with `n >= 1` nodes a frame draws `n` particles of each state and `n - 1` lines |
| TransportVisualization.LinesJoin | src/components/TransportVisualization.tsx:65-73 | the lines are exactly one from each positive multiple of 3 below the count to its predecessor, in the line colour |
| TransportVisualization.LineEnds | src/components/TransportVisualization.tsx:65-67 | every line drawn in a frame joins two of its particles, from one in state 0 to one in state 2 |
| TransportVisualization.ColorsShareAlpha | src/components/TransportVisualization.tsx:32-73 | a particle has its state's colour, all three share alpha `coherence / 100`, and the line is cyan at a fifth of it |
| TransportVisualization.Slots | src/components/TransportVisualization.tsx:42 | particles are evenly spaced round the ring in index order, by `1 / particles` of a turn, within one turn |
| TransportVisualization.DrawParticles | src/components/TransportVisualization.tsx:39-86 | the particle loop draws exactly the specified commands, then the nucleus |
| TransportVisualization.Transport.Mount | src/components/TransportVisualization.tsx:10-11 | a mounted view has its clock at 0 and nothing scheduled |
| TransportVisualization.Transport.Draw | src/components/TransportVisualization.tsx:23-93 | a frame is the commands with the ring phase of the current time; the clock advances one tick iff simulating |
| TransportVisualization.Transport.RunEffect | src/components/TransportVisualization.tsx:13-95 | without a canvas or context nothing happens; otherwise the clock restarts at 0, the time-0 frame is drawn and another is scheduled |
| TransportVisualization.Transport.Fire | src/components/TransportVisualization.tsx:92 | an animation callback draws the frame at the current time |
| TransportVisualization.Transport.Cleanup | src/components/TransportVisualization.tsx:97-99 | the cleanup leaves no callback pending |
| TransportVisualization.CoherenceChangeResetsRing | src/components/TransportVisualization.tsx:88-100 | while simulating the third frame's phase is 0.02; a coherence change re-runs the effect and puts the ring back at phase 0 |

## Left out

- Canvas and DOM calls are not modelled: `fillRect`, `arc`, `stroke`, gradients, `getImageData`/`putImageData`, `querySelector`, class and attribute writes, `textContent` displays and `CustomEvent` dispatch. Frames are draw-command values, and the page is a record of what the handlers wrote.
- The `[data-state]` write at src/glitch-panel.js:150 targets whichever element comes first in the HTML, which is not part of this model.
- Floating-point geometry is not modelled. That covers `Math.sin`/`Math.cos` positions, the wobble offsets, hexagon vertex coordinates, waveform heights, particle radii, connection activations while simulating, and pulse rings. The model keeps what these are computed from: the frame number, the ring slot and phase, and each layer's distortion amplitude in both renderers. The vanilla model also keeps the fractal intensity `depth / 9` and the two waveform amplitudes.
- `drawShape` (src/glitch-panel.js:264-286) is reduced to the shape's kind and size; its triangle, circle and hexagon paths are not modelled.
- Floats are modelled as exact reals. `value / 100` and `lucidity * 100`, `time += 0.03` and `time += 0.02` are exact in the model, and the accumulated time is exactly ticks times the step. Binary floating point can differ in the last bits and can shift a neuron-state boundary.
- `Math.random` choices become inputs or are left out. The glitch trigger is a boolean input. Which overlay cells get a glyph, which glyph, and the band's position and offset are not modelled.
- Scheduling is abstract. In the React components `requestAnimationFrame` and `cancelAnimationFrame` are the `scheduled` flag plus explicit `Fire` and `Cleanup` calls, the effect's re-run is `Cleanup` followed by `RunEffect`, and a remount is a new object. The vanilla `Panel` has no such flag: each `Animate` call stands for one animation callback (src/glitch-panel.js:261), and the loop is never cancelled.
- The rest of the React lifecycle is left out.
- GlitchPanel.Panel.ContentLoaded: requires that no shapes exist yet, which holds for the page's single `DOMContentLoaded`.
- `initCanvas` itself (`InitCanvas`) is modelled for any existing shapes and appends five more each time.
- `console.log`, the commented-out WebSocket and Serial stubs, and `subscribe` (src/glitch-panel.js:336-338) are not modelled.
- `setState` is modelled only for patches whose keys are among the six parameters, with well-typed values. Other keys and ill-typed values that `Object.assign` would copy in are not modelled.
- `asciiMode` is an enumeration in the model. A button's `data-mode` string, or a `setState` mode that is not OFF, LOW or HIGH, is not modelled. The vanilla animation treats any mode other than OFF and LOW like HIGH.
- The lucidity, depth and colour handlers of src/glitch-panel.js take the already parsed number. `parseFloat` and `parseInt` of the slider's text are not modelled.
- The React panel's markup (card, header, labels, `toFixed(2)` display) is left out, except for the classes, styles and data attributes the model states.
- HallucinationVisualization, the other React components, src/tensor_phase_cube.py and the static pages are not part of this model.
