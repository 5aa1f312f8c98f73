# DV photo simulator — a Dafny model

The DV lottery page has one interactive widget, `PhotoSimulator`. It previews a
portrait in a 600 × 600 frame and reports whether the head height lies in the
required 50%–69% band. This project models its logic:

- `JsMath` (`js_math.dfy`): JavaScript's `Math.round`, `Math.max` and
  `Math.min` over exact numbers. `Math.round(x)` is `floor(x + 0.5)`, so ties
  go towards +infinity. The integer `Min` is a helper for stating closed
  forms and models no call in the component.
- `Metrics` (`metrics.dfy`): `HEAD_REQUIREMENT` and the memoised
  `headMetrics`. These give the percentage, the head height in pixels, the
  compliance flag, the eye level and the chin height clamped at 40. The lemmas
  turn each metric into an integer formula in the slider percentage `p`.
- `Geometry` (`geometry.dfy`): the illustration geometry. This covers the head
  radius and centre, the shoulder line clamped at 560, the torso height clamped
  at 80, and the drawn eye line.
- `Simulator` (`simulator.dfy`): the component state `(headRatio,
  backgroundIndex, skinToneIndex, showGuides)` and the swatch tables. It also
  has the four event handlers (slider, background swatch, skin swatch, guide
  toggle), sessions of events, and the rendered readouts.

The slider is a range input with `min=45` and `max=75`. Its handler stores
`Number(value) / 100`, and the initial ratio 0.62 is 62/100. So every head
ratio the component can hold is `p / 100` for an integer `p`. The state keeps
`p` (`headPercent`) and derives the ratio from it. Metrics and geometry follow
the source's arithmetic over Dafny `real`: for example, `ratio * 600` is then
rounded. The lemmas show that the results equal the integer formulas
(`6p`, `max(40, 480 − 6p)`, `(12050 + 372p) div 100`, …).

The range input (`min=45`, `max=75`, default step 1) reports only integer
percentages, so the model uses integer `p`.

## Model

| member | source | states |
|---|---|---|
| JsMath.Round | dv-lottery/src/components/photo-simulator.tsx:32-39 | `Math.round(x)` is the unique integer `r` with `r − 0.5 ≤ x < r + 0.5` (nearest integer, ties upward) |
| JsMath.RoundMonotone | dv-lottery/src/components/photo-simulator.tsx:39 | rounding preserves order, which the eye-level monotonicity rests on |
| JsMath.RoundHundredths | dv-lottery/src/components/photo-simulator.tsx:39 | rounding `n / 100` equals integer floor division `(n + 50) / 100` |
| JsMath.Max | dv-lottery/src/components/photo-simulator.tsx:40 | `Math.max` on the integer chin height: the larger of its two arguments, and one of them |
| JsMath.MinReal | dv-lottery/src/components/photo-simulator.tsx:47 | `Math.min` on the unrounded shoulder line: the smaller of its two arguments, and one of them |
| JsMath.MaxReal | dv-lottery/src/components/photo-simulator.tsx:48 | `Math.max` on the unrounded torso height: the larger of its two arguments, and one of them |
| Metrics.HeadMetricsOf | dv-lottery/src/components/photo-simulator.tsx:31-42 | for every ratio, the chin height is at least 40; either the clamp is in force or crown offset 120 + head + chin fill the 600-pixel frame exactly |
| Metrics.MetricsOfPercent | dv-lottery/src/components/photo-simulator.tsx:6-42 | for ratio `p/100`: the percentage is `p` again, head height `6p`, compliant iff 50 ≤ p ≤ 69 (inclusive at both ends), eye level `(12050 + 372p) div 100`, chin `max(40, 480 − 6p)` |
| Metrics.EyeLevelNoTie | dv-lottery/src/components/photo-simulator.tsx:39 | the value the eye level rounds, `120 + head × 0.62` (= `120 + 3.72p`), rounds to the reported eye level and is at least 0.02 away from a half-integer, so no rounding tie occurs and any tie convention gives the same pixel |
| Metrics.ChinClamp | dv-lottery/src/components/photo-simulator.tsx:33-40 | chin height ≥ 40; `120 + head + chin = 600` holds exactly when p ≤ 73; chin is 40 for p ≥ 74 (so at 75) |
| Metrics.EyeLevelMonotone | dv-lottery/src/components/photo-simulator.tsx:39 | the eye level is non-decreasing in `p`, and strictly increasing |
| Geometry.FigureOf | dv-lottery/src/components/photo-simulator.tsx:44-49 | for every ratio: the head circle touches the crown line y = 120, shoulder line ≤ 560, torso height ≥ 80, and the torso reaches y = 580 |
| Geometry.FigureOfPercent | dv-lottery/src/components/photo-simulator.tsx:44-49 | for ratio `p/100`: radius `3p`, centre `120 + 3p`, shoulder `min(168 + 6p, 560)`, torso `max(80, 580 − shoulder)`, drawn eye line `120 + 1.92p`, which lies between the crown and the head centre |
| Geometry.FigureClamps | dv-lottery/src/components/photo-simulator.tsx:47-48 | the shoulder clamp is active exactly when p ≥ 66, the torso minimum exactly when p ≥ 56 |
| Simulator.Step | dv-lottery/src/components/photo-simulator.tsx:199-274 | the slider handler stores the slider value and each swatch handler stores the clicked index; handlers the page can fire keep the index invariant; swatch picks and the toggle leave every metric unchanged; after a slider event the displayed percentage equals the slider value |
| Simulator.StepFrame | dv-lottery/src/components/photo-simulator.tsx:204-274 | each handler changes only its own state field; the guide flag changes exactly on a toggle |
| Simulator.ToggleTwice | dv-lottery/src/components/photo-simulator.tsx:274 | toggling the guides twice restores the state, and toggling once always changes it |
| Simulator.RunPreservesValid | dv-lottery/src/components/photo-simulator.tsx:11-29 | from a valid state, every session of events the page can produce ends in a state whose swatch indices address their arrays |
| Simulator.RunHeadPercent | dv-lottery/src/components/photo-simulator.tsx:204 | after a session the head ratio is the one set by the last slider event (or the starting one) |
| Simulator.RunMetrics | dv-lottery/src/components/photo-simulator.tsx:31-42 | after a session the metrics depend only on the last slider value |
| Simulator.RunGuides | dv-lottery/src/components/photo-simulator.tsx:274 | after a session the guide flag has flipped once for each toggle event |
| Simulator.Render | dv-lottery/src/components/photo-simulator.tsx:80-275 | lookups are in range for valid states; the percentage text and the slider show the state's percentage; the eye-level readout is `(12050 + 372p) div 100` and the drawn eye line is at `120 + 1.92p`; label and fills are the selected swatches' ones; the warning appears exactly outside 50–69; the head reads `6p` pixels; the chin guide is at `min(120 + 6p, 560)`; exactly the selected swatch of each group is pressed; the guide toggle's `aria-pressed` holds exactly while the guides are drawn; the head circle is drawn at centre `120 + 3p` with radius `3p` |
| Simulator.InitialScenario | dv-lottery/src/components/photo-simulator.tsx:26-42 | the opening state has ratio 0.62 and is valid; it reads 62%, 372 px head, eye level 351, compliant, chin 108, and shows no warning |

## Left out

- IEEE-754 doubles: the model computes `headRatio * 600`, `* 100`, `* 0.62` and the geometry exactly. `Metrics.EyeLevelNoTie` shows the rounded eye level has a margin of 0.02, so an error below 0.02 in the computed value cannot change it. Double rounding of the geometry values is not modelled.
- JSX and SVG markup: the path strings, the rectangle, ellipse and hair-path coordinates derived from the radius, CSS classes other than the pass/fail style and the swatch selection, the `role` and `aria-label` attributes, and the "Hide/Show guidelines" caption are presentation only.
- React plumbing: `useMemo` caching and re-render scheduling are modelled as plain functions of the state.
- The browser's sanitising of the range input is not part of the source. It appears as the `Enabled` condition on slider events (value within min 45 and max 75).
- `dv-lottery/src/app/page.tsx`: static requirement cards, checklist, tips and links, with no computation.
