# Outside-label placement for pie and doughnut charts — a Dafny model

This project models the label-placement engine of a Chart.js plugin that draws
labels outside the slices of a pie or doughnut chart (`OutLabel` in
`src/classes.js`). The engine handles one label at a time:

- It splits the formatted text into trimmed lines. A text with nothing but line
  breaks fails with "No text to show.".
- It picks a horizontal target offset from the slice's mid-angle and steps the
  current offset towards it.
- It builds the text rectangle around the anchor, then the label rectangle
  around that by adding border and padding.
- On each `update` it searches for a position that does not collide, using one
  of two fixed modes.
  - Mode A (generic) pushes the label away from its anchor. It stops only when
    no corner test against an already placed label succeeds.
  - Mode B (polar-aware) has a budget of 300 iterations. Each iteration checks
    first, then makes at most one move. If a corner is off the canvas or the
    label hits a placed label, it moves the label vertically. Otherwise, if a
    corner is inside the outer radius or the centre is too close to the arc
    centre, it moves the label horizontally. Otherwise the label is placed. A
    horizontal move can create a new collision, so later iterations can go
    back to vertical moves. Past iteration 100 it sets `flipX`.

Modules, one per component:

- `Geometry` (geometry.dfy): points, sizes, rectangles and padding; `TextRect`,
  `LabelRect`, `Corners`, `ContainsPoint` with its falsy-tolerance rule, and
  squared distances.
- `Anchor` (anchor.dfy): the arc and the candidate centre record, with the movers
  `MoveHorizontally` and `MoveVertically`.
- `OffsetAnimator` (offset.dfy): `Trunc`, the target rule `TargetOffsetX`, and
  `StepToward`, the step of `moveLabelToOffset`, with its convergence.
- `TextLines` (text_lines.dfy): the runs that `/[^\r\n]+/g` matches,
  `String.prototype.trim`, and `ExtractLines`, the trimming loop.
- `Resolver` (resolver.dfy): the symmetric corner test, the mode B checks, and
  the two resolution loops `ResolveGeneric` (mode A) and `ResolvePolar`
  (mode B).
- `Labels` (labels.dfy): the `OutLabel` class. It has the fields `offset`,
  `predictedOffset`, `center`, `textRect` and `labelRect`. `init` is its
  constructor, and it has the methods `MoveLabelToOffset` and `Update`. The
  module also holds `NewOutLabel`, which is the whole constructor including the
  throw.
- `Wrappers` (wrappers.dfy): `Option` and `Result`.

Points worth knowing when reading the model:

- `predictedOffset` is the same object as `offset` (src/classes.js:96). So the
  target rule writes the current offset as well. A freshly built label starts at
  its target, and its first `moveLabelToOffset` does nothing
  (`Labels.FirstStepKeepsTarget`). The stepping is also modelled for two
  separate objects. In that case an offset that is already beyond a target of
  the same sign (0 < target < x, or x < target < 0) never moves back
  (`OffsetAnimator.StepStallsPastTarget`).
- The collision test only checks corners. A wide, flat label that crosses a
  tall, narrow one has no corner inside the other, so both modes accept that
  overlap (`Resolver.CornerTestMissesCrossing`). Mode A therefore guarantees
  that the corner test finds nothing. It does not guarantee that the
  rectangles are disjoint.
- Apart from the display flag, construction fails only when the text has no
  character other than CR and LF. A line made only of spaces is trimmed to "" and kept.
- `update` is one `while (!valid)` loop with a branch on `useCustomLogic`, which
  stays fixed for the whole call. The model runs the same loop body for each
  mode as its own method, `ResolveGeneric` or `ResolvePolar`, over local
  variables. `Update` then writes the final centre and rectangles into the
  object.
- Distances are compared through their squares, and `DistAtMost` and
  `DistBelow` state the comparisons exactly. `Geometry.SqrtFreeComparisons`
  shows that they agree with comparing the square root.

## Model

| member | source | states |
|---|---|---|
| Geometry.TextRect | src/classes.js:131-138 | the text rectangle has the measured width and height and its centre is the current anchor |
| Geometry.LabelRect | src/classes.js:113-129 | the label rectangle extends left/top of the text by padding.left/top plus border, right/bottom by the rest of the padding total plus border |
| Geometry.LabelRectEnclosesText | src/classes.js:113-138 | with non-negative border and padding on every side the label rectangle covers the text rectangle |
| Geometry.Corners | src/classes.js:140-159 | `getPoints`: exactly four corners; CornersClockwise fixes their order and position |
| Geometry.CornersClockwise | src/classes.js:140-159 | exactly four corners, clockwise on the canvas from the top-left one, which is the smallest in both coordinates; corner 2 is the bottom-right |
| Geometry.Tolerance | src/classes.js:161-164 | a missing or zero tolerance becomes 5, any other value is kept |
| Geometry.ContainsPoint | src/classes.js:161-169 | `containsPoint`: described by ContainsPointMargin (the tolerance band on every edge), ZeroToleranceIsDefault and CornersContained |
| Geometry.ZeroToleranceIsDefault | src/classes.js:161-164 | containment with tolerance 0, without a tolerance and with tolerance 5 coincide |
| Geometry.ContainsPointMargin | src/classes.js:166-168 | a point level with the rectangle and m outside an edge is contained exactly when m is at most the tolerance, for all four edges |
| Geometry.CornersContained | src/classes.js:140-169 | every corner of a rectangle of non-negative size is contained in it with any non-negative tolerance |
| Geometry.SquaredDistance | src/classes.js:472-481 | the squared distance used in place of the distance is never negative |
| Geometry.SqrtFreeComparisons | src/classes.js:378-389 | for d >= 0 with d*d = sq, "d <= r" and "d < r" are exactly the square-based tests the model uses |
| Anchor.Center.Shifted | src/classes.js:276-277 | adding the offset moves only the position, by the offset; arc, anchor, flip, distance and connector end are kept |
| Anchor.MoveHorizontally | src/classes.js:401-432 | only x changes, by dist, away from the arc centre on the same side (distance to arc.x grows by dist); y, arc, anchor, flipX kept; copy is the new point; distance recomputed |
| Anchor.MoveVertically | src/classes.js:434-466 | only y changes, by +dist or -dist; x, arc, anchor, flipX kept; copy is the new point; distance recomputed |
| Anchor.FlipReversesVerticalMove | src/classes.js:445-450 | toggling flipX reverses the vertical step |
| Anchor.VerticalMoveDirection | src/classes.js:445-450 | for dist > 0 the label moves down the canvas exactly when "natural point above the arc centre" differs from flipX |
| OffsetAnimator.Trunc | src/classes.js:99 | truncation towards zero: the result has the sign of x and is within one of it, on the side of zero |
| OffsetAnimator.TargetOffsetX | src/classes.js:98-107 | the target is 0, width/2, -width/2 or the previous target |
| OffsetAnimator.TargetMatchesBands | src/classes.js:99-107 | for -2 < angle < 2 (angle = -mid/pi, so mid angles strictly between -2pi and 2pi) the fractional-part rule equals plain bands: 0 within 0.05 of -1.5, -0.5, 0.5 and 1.5 (mid angles at the odd multiples of pi/2), width/2 on [-0.45, 0.45], -width/2 on [-1.45, -0.55], otherwise unchanged |
| OffsetAnimator.FullTurnAlwaysPicksTarget | src/classes.js:101-107 | for mid-angles of a circle starting at the top (angle in [-1.5, 0.5)) the previous target never matters |
| OffsetAnimator.StepToward | src/classes.js:485-497 | the step of `moveLabelToOffset`: the new offset is the old one, the target, or the old one moved by exactly the step; StepStaysBetween, StepBounded, StepStallsPastTarget and StepsLinearUp/Down describe it |
| OffsetAnimator.StepStaysBetween | src/classes.js:485-497 | with a non-negative step the new offset lies between the old offset and the target: it never passes the target |
| OffsetAnimator.StepBounded | src/classes.js:485-497 | one step changes the offset by at most the step |
| OffsetAnimator.StepAtTarget | src/classes.js:485-497 | at the target a step is a no-op |
| OffsetAnimator.StepStallsPastTarget | src/classes.js:485-497 | with a positive step the offset stays put exactly when it is at the target or beyond a target of the same sign (0 < target < x or x < target < 0) |
| OffsetAnimator.StepsAtTarget | src/classes.js:485-497 | any number of steps from the target stay at the target |
| OffsetAnimator.StepsLinearUp | src/classes.js:491-496 | from any x below a non-negative target, n steps give x + n*step until that reaches the target, then the target (reached within ceil((target-x)/step) steps) |
| OffsetAnimator.StepsLinearDown | src/classes.js:486-490 | the mirror image: from any x above a non-positive target, n steps give x - n*step until that reaches the target, then the target |
| OffsetAnimator.Offset.constructor | src/classes.js:92-95 | the offset object starts with the given x and y |
| TextLines.Runs | src/classes.js:50 | `text.match(/[^\r\n]+/g)`: at most one match per character; RunsOfLine and RunsSplit fix the matches, RunsAreLines and RunsEmptyIff describe them |
| TextLines.RunsAreLines | src/classes.js:50 | every matched line is non-empty and holds no CR or LF |
| TextLines.RunsEmptyIff | src/classes.js:50-55 | there is no match exactly when every character is CR or LF |
| TextLines.RunsOfLine | src/classes.js:50 | a non-empty text without CR/LF is one single match |
| TextLines.RunsSplit | src/classes.js:50 | a CR or LF splits the matches: runs(a + [b] + c) = runs(a) + runs(c), which together with RunsOfLine fixes the matches as the maximal runs |
| TextLines.TrimStart | src/classes.js:59 | the result is a suffix, everything dropped is white space, and it does not start with white space |
| TextLines.TrimEnd | src/classes.js:59 | the result is a prefix, everything dropped is white space, and it does not end with white space |
| TextLines.Trim | src/classes.js:59 | `.trim()`: never longer than the line; TrimStart, TrimEnd, TrimKeepsMiddle, TrimmedEnds and TrimIdempotent describe it |
| TextLines.TrimKeepsMiddle | src/classes.js:59 | trim keeps a contiguous middle part and drops only white space on both sides |
| TextLines.TrimmedEnds | src/classes.js:59 | a trimmed line is empty or neither starts nor ends with white space |
| TextLines.TrimIdempotent | src/classes.js:59 | trimming twice is trimming once |
| TextLines.ExtractLines | src/classes.js:49-60 | fails with NoTextToShow exactly when the text is only CR/LF; otherwise returns one line per maximal run, each the trimmed run |
| TextLines.TrimmedRunsHaveNoBreak | src/classes.js:50-60 | every stored line is free of CR and LF |
| Resolver.CornerHit | src/classes.js:304-314 | the two-way corner loop: some corner of either rectangle lies in the other with tolerance 5; CornerHitSymmetric, CornerHitMeansOverlap and CornerTestMissesCrossing describe it |
| Resolver.CornerHitSymmetric | src/classes.js:304-314 | the corner test does not depend on which of the two rectangles is the candidate |
| Resolver.CornerHitMeansOverlap | src/classes.js:304-314 | a corner hit implies that the rectangles, one grown by the tolerance 5, meet |
| Resolver.CornerTestMissesCrossing | src/classes.js:304-314 | two crossing rectangles overlap while the corner test finds no hit |
| Resolver.CheckOverlaps | src/classes.js:296-315 | the overlap loop clears the flag exactly when some placed label among the first max elements hits the candidate, elements without a label skipped |
| Resolver.CornersWithinCanvasIff | src/classes.js:335-340 | all corners lie vertically in [0, canvas height] exactly when the whole rectangle does |
| Resolver.CheckWithinCanvas | src/classes.js:335-340 | the canvas loop is true exactly when every corner y lies in [0, canvas height] |
| Resolver.CheckOutsideArc | src/classes.js:377-383 | the corner loop is true exactly when no corner is within the outer radius of the arc centre |
| Resolver.ResolvePolar | src/classes.js:322-397 | mode B: ends after 1 to 301 iterations, abandoned exactly at 301; rectangles recomputed from the final centre; when placed every corner is on the canvas, collides with no placed label, is farther than the outer radius, and the centre keeps width/2 + outerRadius + stretch; arc and anchor kept; flipX set once the counter passed 100; a start that already passes both checks is placed in the first iteration, unmoved |
| Resolver.Pushed | src/classes.js:318-320 | the centre after k mode A pushes (`moveFromAnchor(center, 1)` with the offset added back); ResolveGeneric states that its result is the first collision-free one |
| Resolver.ResolveGeneric | src/classes.js:295-321 | mode A: the final centre is the first one in the push sequence (moveFromAnchor by 1, offset added back) whose label rectangle passes the corner test; every earlier one collided; rectangles recomputed from the final centre |
| Labels.OutLabel.constructor | src/classes.js:63-108 | fields assigned; offsetStep is width/20; offset and predictedOffset are one fresh object whose x is the target for the angle and whose y is 0 |
| Labels.OutLabel.MoveLabelToOffset | src/classes.js:485-497 | offset.x becomes one clamped step towards predictedOffset.x; offset.y unchanged |
| Labels.OutLabel.Update | src/classes.js:272-399 | starts from the positioner's centre plus the stepped offset and runs the fixed mode: mode A ends at the first collision-free push within the fuel (n <= fuel, every earlier push collided, placed exactly when the n-th is collision-free, out of fuel only at n = fuel); mode B as ResolvePolar, including the unmoved first-iteration placement of a shifted centre that already passes; rectangles always match the final centre |
| Labels.NewOutLabel | src/classes.js:49-110 | construction fails exactly when the text is only CR/LF; otherwise the label holds the trimmed runs, their measured size, the given style, stretch and mode, offsetStep = width/20, and one fresh shared offset object at the target for the angle with y = 0 |
| Labels.FirstStepKeepsTarget | src/classes.js:92-107 | because of the shared offset object, a new label's offset already is the target and the first step leaves it there |

## Left out

- Drawing (`drawText`, `drawLabel`, `drawLine`, `draw`) and the `useCustomLabels` font change: these only write to the canvas.
- Option resolution (`resolve`, `parseFont`, `toPadding`) and text measurement (`textSize`) are library calls. The style, stretch and mode flag are inputs, and the size comes from a caller-supplied `measure` function.
- The `%l`, `%v` and `%p` substitutions. They format numbers with `toFixed`, and the text reaches the model already formatted.
- The "display is false" error. It depends only on option resolution.
- `positioners.center` and `positioners.moveFromAnchor` are in `src/positioners.js`, which is not part of this model. `Update` receives the positioner's centre and the push function as inputs.
- The division of the mid-angle by `Math.PI`. `angle` (= -mid/pi) is an input to the target rule.
- `Math.sqrt`: distances are kept and compared as squares, so the centre's `d` is held as `dSquared`.
- `Math.cos` and `Math.sin` in the movers. The sign test "natural point above the arc centre" is a caller-supplied function of the arc and the squared distance. The trigonometry of `moveHorizontally` (src/classes.js:404-409: `cosA`, `sinA`, `originalX`, `originalY`) is computed and never read, so it is dropped. In `moveVertically` only `originalY` is used, and the unused `originalX` (src/classes.js:441) is dropped.
- Resolver.ResolveGeneric: the source loop has no bound and need not terminate. The model stops after `fuel` pushes and reports `OutOfFuel`, which the source does not have.
- Resolver.ResolvePolar: states the exit guarantees, the budget, the flip and the unmoved placement of a start that passes both checks, not the sequence of moves taken, so an abandoned run's position is unconstrained. The route depends on the caller's `naturalAbove` and on the placed labels, and callers rely only on the exit state.
- Floating point: coordinates are mathematical reals, so there is no rounding, and NaN (also falsy as a tolerance) does not occur.
- Object identity of the centre record: the source mutates it in place (`center.x += …`, `center.flipX = true`). The model uses values, and `Update` writes the final state back only at the end.
- The other labels are passed as a snapshot of their label rectangles. The candidate label appearing among them, and `max` beyond the element list (a TypeError in the source), are not modelled.
- Before the first `update` the source leaves `center` and both rectangles undefined. The model gives them placeholder values.
- The fields `encodedText`, `label`, `value` and `ctx`: the engine does not read them.
