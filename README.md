# Draggable melody over a solfege staff — Dafny model

The widget draws a fixed reference staff on a canvas. The staff has one major-scale
octave of lines labelled Do … Do. Over it the widget draws a melody, given as a list
of semitone steps: one short bar per note, each note `step` spacings above the
previous one. The user drags the melody up and down with the pointer. When the pointer
is released and every note lies within 5 px of a staff line, the melody is repainted
in green with each note snapped onto its nearest line.

This project models that core with integer arithmetic:

- `canvas.dfy` (module `Canvas`): the drawing surface as a list of `Bar` records.
  Each record is one `fillRect` call: x, top, width, height and colour.
- `staff.dfy` (module `Staff`): the constants, the semitone-to-y map
  `y = 700 - 50 * semitone`, and the staff's bars.
- `layout.dfy` (module `Layout`): the absolute semitones (prefix sums of the steps)
  and the normalisation loop, run in place on an array as the source does. Also the
  melody range, the chain of note positions, and the melody's bars.
- `alignment.dfy` (module `Alignment`): the check pass, the nearest-line scan and the
  snap chain. Their rules are stated for any list of line positions, and the widget
  applies them to the staff's positions.
- `widget.dfy` (module `Widget`): class `MelodyWidget`. Its fields are the
  module-level globals (`melodySemitonePattern`, `melodyRange`, `currentY`,
  `isDragging`, `dragStartY`, `melodyOffsetY`) plus the painted `canvas`. Its methods
  are `main`, `redrawCanvas`, `checkMelodyAlignment`, `reset` and the four pointer
  handlers. `DragScenario` is a small client: down at 100, moves to 130 and 110,
  release, reset.

Behaviour kept exactly as the code does it:

- The normalisation loop re-evaluates `Math.min` over the partly shifted array at
  every index. It is therefore not a plain shift to zero: steps `[5, -2]` give
  `[2, 1]` and range 1 (`Layout.NormaliseExample`). The result is not a shift that
  brings the minimum to 0.
- `checkMelodyAlignment` declares its own local `currentY`, so it changes no field
  but the canvas. The snap pass chains each note from the previous *snapped* y.
- Two `pointerup` listeners are registered. The alignment check is registered first
  and runs on every release, whether or not a drag is active. The listener that ends
  the drag runs second (`PointerUp`). `pointerleave` only ends the drag.
- `main` and `redrawCanvas` lay out the melody with the same loop. Both are modelled
  through one method, `DrawMelody`, so they paint the same bars for the same pattern
  and offset. `main` paints over what is already on the canvas. `redrawCanvas` clears
  the canvas first and repaints the staff.

A main result (`Alignment.SnapFollowsRawNotes`): when every raw note is within the
tolerance of a line, chaining from the snapped note still snaps every note to the
line next to its raw position. This holds because staff lines are at least 50 px
apart, which is more than four times the tolerance. So a melody whose notes already
sit on lines is a fixed point of snapping (`Alignment.SnapFixedPoint`).

## Model

| member | source | states |
|---|---|---|
| `Staff.VerticalPosition` | script.js:17-21 | semitone s sits at y `700 - 50 s`: semitone 0 on the bottom line, each semitone up one spacing higher |
| `Staff.PositionsOf` | script.js:17-22 | the `map` yields one position per semitone |
| `Staff.PositionsDecreaseAsSemitonesRise` | script.js:17-22 | any strictly increasing semitone list maps to strictly decreasing y positions |
| `Staff.ReferencePositions` | script.js:14-22 | the staff positions are exactly `[700,600,500,450,350,250,150,100]` and strictly decreasing |
| `Staff.ReferenceLinesSeparated` | script.js:14-22 | two different staff lines are at least one spacing (50 px) apart |
| `Staff.ReferenceBars` | script.js:24-33 | `drawReferenceLines` paints one bar per template entry |
| `Layout.Scan` | script.js:64-70 | the `reduce` yields one running value per step |
| `Layout.PrefixSums` | script.js:61-70 | one absolute semitone per step |
| `Layout.ScanIsSum` | script.js:64-70 | running value i is the start value plus the sum of steps 0..i |
| `Layout.PrefixSumsChain` | script.js:64-70 | absolute semitone i is the sum of steps 0..i and equals the previous absolute semitone (0 before the first) plus step i |
| `Layout.SeqMin` | script.js:73 | `Math.min` over a non-empty list is an element and no element is smaller |
| `Layout.SeqMax` | script.js:77 | `Math.max` over a non-empty list is an element and no element is larger |
| `Layout.NormaliseFrom` | script.js:72-74 | the loop keeps the list's length |
| `Layout.Normalised` | script.js:72-74 | normalisation keeps the list's length |
| `Layout.NormaliseKeepsDone` | script.js:72-74 | entries before the loop index are never touched again |
| `Layout.NormaliseStep` | script.js:72-74 | entry i ends up as its value when reached minus the minimum of the list at that moment, itself included |
| `Layout.NormaliseFromNonNegative` | script.js:72-74 | once the loop has passed an entry it is non-negative, so the result has no negative entry |
| `Layout.NormalisedNonNegative` | script.js:72-74 | every entry of the normalised absolute semitones is at least 0 |
| `Layout.NormaliseExample` | script.js:61-77 | steps `[5,-2]` give absolute semitones `[5,3]`, normalised `[2,1]`, range 1 |
| `Layout.MelodyRange` | script.js:76-77 | the range is non-negative, is the difference of two entries and no two entries differ by more |
| `Layout.NoteYs` | script.js:86-93 | one note y per step |
| `Layout.NoteYsChain` | script.js:86-93 | note i is `50 * step_i` above note i-1, note 0 is measured from the start y |
| `Layout.NoteYsFromAbsolute` | script.js:64-93 | note i is `50 *` (absolute semitone i) above the start y |
| `Layout.NoteYsMatchScan` | script.js:64-93 | the note chain and the running semitone sum agree for any start value of the sum |
| `Layout.NoteYsExample` | script.js:86-93 | steps `[2,2,3]` from y 500 give notes at 400, 300, 150 |
| `Layout.LastY` | script.js:86-93 | the y the layout loop leaves in `currentY`: the last note's y, or the start y when there is no note (no contract; used by the method contracts) |
| `Layout.Bars` | script.js:86-93 | one bar per note |
| `Layout.BarsSnoc` | script.js:89-92 | painting note i's bar at `x + 70 i` extends the bars of the notes before it |
| `Layout.ComputeMelodyRange` | script.js:61-77 | the range `main` stores is the range of the normalised absolute semitones |
| `Layout.AbsoluteSemitones` | script.js:61-70 | the pushed array holds exactly the prefix sums of the steps |
| `Layout.NormaliseInPlace` | script.js:72-74 | the in-place loop leaves the array equal to the normalisation of its old contents |
| `Alignment.Aligned` | script.js:131-133 | the `some(...)` test: some line lies within 5 px of y, bound inclusive (no contract; `AlignedIffNearestWithin` relates it to the snap) |
| `Alignment.NearestIndexFrom` | script.js:162-171 | the scan yields a valid line index |
| `Alignment.NearestIndexFromIsFirstNearest` | script.js:162-171 | a scan that keeps the first nearest line seen so far ends with the first nearest line overall |
| `Alignment.NearestIndex` | script.js:162-171 | the snap target is a valid line index |
| `Alignment.NearestIndexIsFirstNearest` | script.js:162-171 | no line is strictly closer than the snap target, and every line before it is strictly farther (lowest index wins a tie) |
| `Alignment.NearestLine` | script.js:161-175 | the y `closestLineY` ends on: the line at `NearestIndex` (no contract; its properties are in `NearestLineIsClosest`) |
| `Alignment.NearestLineIsClosest` | script.js:161-171 | the snap target is one of the lines, and no line is strictly closer to the note |
| `Alignment.AlignedIffNearestWithin` | script.js:130-171 | a note passes the `some(...)` test exactly when the line it would snap to is within 5 px of it |
| `Alignment.FirstNearestUnique` | script.js:162-171 | the closest-line rule with its tie rule picks exactly one line |
| `Alignment.StaffWellSeparated` | script.js:14-22 | staff lines are more than four tolerances apart |
| `Alignment.NearestLineWithin` | script.js:161-171 | a line within twice the tolerance of a note is the one it snaps to |
| `Alignment.SnappedYs` | script.js:158-177 | one snapped y per step |
| `Alignment.SnapChain` | script.js:158-177 | each snapped y is a line, the nearest one to the previous snapped y (the start for note 0) moved by the step |
| `Alignment.SnapNearAligned` | script.js:126-177 | a point within the tolerance of an aligned note snaps to the same line, and that line is within the tolerance of the note |
| `Alignment.AllAlignedTail` | script.js:126-141 | if the whole raw chain is aligned then its first note is aligned and so is the chain that follows it |
| `Alignment.SnapDrift` | script.js:143-177 | snapping from a start within the tolerance of the raw start lands each note on the line next to its raw position |
| `Alignment.SnapFollowsRawNotes` | script.js:120-177 | when all raw notes are aligned, each snapped note is the nearest line to its raw note and within 5 px of it |
| `Alignment.SnapFixedPoint` | script.js:120-177 | notes already on staff lines are aligned and snapping leaves them where they are |
| `Alignment.FlatMelodyStays` | script.js:86-93 | with all-zero steps every note stays at the start y |
| `Alignment.FlatMelodyAligned` | script.js:120-177 | all-zero steps from the first staff line are aligned and snap onto that line |
| `Alignment.CheckPass` | script.js:120-141 | the early-exit walk returns true iff every raw-chain note has a staff line within 5 px, bound inclusive |
| `Alignment.ClosestLine` | script.js:161-171 | the strict-`<` scan from line 0 returns the first nearest staff line |
| `Widget.InitialOffsetY` | script.js:45 | the initial offset starts the chain where semitone 6 would sit on the staff (y 400) |
| `Widget.StartY` | script.js:79 | the chain starts at the Do line (semitone 0, y 700) moved by the offset; the same expression is at script.js:107, 124 and 152 |
| `Widget.DragStep` | script.js:212-214 | one move puts the anchor at the pointer y and leaves offset minus anchor unchanged |
| `Widget.DragMoves` | script.js:210-217 | a run of moves leaves offset minus anchor unchanged, and no moves change nothing |
| `Widget.DragMovesTelescope` | script.js:210-217 | after a run of moves the offset changed by the last pointer y minus the starting anchor, and the anchor is the last pointer y |
| `Widget.DragExample` | script.js:210-217 | down at 100 then moves at 130 and 110 change the offset by +10 |
| `Widget.OnMelodySpan` | script.js:199-203 | the `pointerdown` test: x lies on `[melodyXStart, melodyXStart + 70 len]`, both ends included (no contract) |
| `Widget.BarsOnMelodySpan` | script.js:195-208 | every x on a painted melody bar is on the span, so a press anywhere on a bar starts a drag |
| `Widget.MelodyWidget.constructor` | script.js:35-47 | initial globals (offset -300, y variables 0, not dragging, no pattern) and the staff painted |
| `Widget.MelodyWidget.DrawReferenceLines` | script.js:24-33 | appends the staff's bars to the canvas |
| `Widget.MelodyWidget.DrawMelody` | script.js:79-93 | appends one bar per raw note, bar i at `melodyXStart + 70 i` centred on note i, and leaves the last note's y (or the start y) in `currentY` |
| `Widget.MelodyWidget.RunMain` | script.js:60-94 | `main`: sets the range from the normalised absolute semitones and paints the melody in blue over the canvas |
| `Widget.MelodyWidget.ShowMelody` | script.js:183-187 | replaces the pattern and runs `main` on it |
| `Widget.MelodyWidget.RedrawCanvas` | script.js:98-118 | the canvas becomes the staff plus the melody bars in the given colour, and `currentY` is the last note |
| `Widget.MelodyWidget.CheckMelodyAlignment` | script.js:120-179 | if all raw notes are aligned the canvas becomes the staff plus green snapped bars, otherwise it is untouched; no other field changes |
| `Widget.MelodyWidget.DrawSnappedMelody` | script.js:152-177 | appends one green bar per note on its snapped line, chaining from the previous snapped y |
| `Widget.MelodyWidget.Reset` | script.js:49-58 | the canvas becomes the staff, offset -300, `currentY` and `dragStartY` 0; drag flag and pattern untouched, so `Valid()` is kept |
| `Widget.MelodyWidget.PointerDown` | script.js:195-208 | on the inclusive span `[melodyXStart, melodyXStart + 70 len]` starts a drag anchored at the pointer y; elsewhere changes nothing |
| `Widget.MelodyWidget.PointerMove` | script.js:210-217 | while dragging adds the pointer's travel to the offset, re-anchors and repaints in blue; otherwise changes nothing |
| `Widget.MelodyWidget.PointerUp` | script.js:193-221 | runs the alignment check first, then ends the drag |
| `Widget.MelodyWidget.PointerLeave` | script.js:223-225 | ends the drag |

`Alignment.ZeroSteps` is a helper with no row. It builds the all-zero pattern that
`FlatMelodyStays` and `FlatMelodyAligned` are stated for.

## Left out

- Parsing the text box (`split(' ')` and `parseInt`, script.js:184). It can yield `NaN`. The pattern is taken as a given list of integers. `split` always yields at least one token, so `ShowMelody` and `RunMain` (the model of `main`) require a non-empty pattern. That also keeps `Math.min`/`Math.max` away from an empty list, whose ±Infinity result is floating-point behaviour.
- The pattern before the first "show melody" is `undefined` in the source, and handlers that read it would throw. The model stands for it with the empty list. `PointerDown`, `PointerUp`, `CheckMelodyAlignment` and `RedrawCanvas` require a non-empty pattern. `Valid()` records that a drag only exists once a pattern is shown, and `PointerMove` relies on it to call `RedrawCanvas` while dragging.
- `melodyRange` starts `undefined`; the model starts it at 0. Nothing in the widget reads it.
- DOM lookups, the canvas context, font setup, `fillText` labels and `console.log` are not modelled. `clearRect` is modelled as emptying the bar list. `fillStyle` is modelled as the colour carried by each bar.
- `getBoundingClientRect` is not modelled. `PointerDown` takes the canvas-local x as a parameter.
- The source computes in IEEE doubles: the `reduce` sums (script.js:65), `step * semitoneVerticalSpacing` (script.js:87, 111, 128, 159), `melodyOffsetY += deltaY` (script.js:213) and the `Math.abs` differences (script.js:132, 166). These round once magnitudes pass 2^53. The model computes exactly with unbounded integers, so it does not capture that rounding. Realistic steps and pointer moves stay far below that bound.
- `melodyXStart` (`canvas.width / 6`) and the pointer coordinates are integers here; fractional values are not modelled.
- Event delivery and listener registration are not modelled. Handlers are methods called one after another, and `PointerUp` runs the two `pointerup` listeners in registration order.
- A source pointer listener calls `redrawCanvas()` with its default colour blue. `RedrawCanvas` takes the colour as a parameter, and `PointerMove` passes `Blue`.
