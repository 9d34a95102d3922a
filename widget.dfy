/** The widget's module-level state and its event handlers: showing a melody,
    redrawing, the alignment check with snapping, reset, and the pointer-driven
    drag state machine. */
module Widget {
  import opened Canvas
  import opened Staff
  import opened Layout
  import opened Alignment

  /** The melody's vertical offset at load and after reset: six spacings up, so
      the chain starts where semitone 6 would sit on the staff. */
  function InitialOffsetY(): (offsetY: int)
    ensures StartY(offsetY) == VerticalPosition(6)
  {
    SemitoneVerticalSpacing * -6
  }

  /** The y the melody chain starts from: the first staff line (Do, semitone 0)
      moved by the offset. */
  function StartY(melodyOffsetY: int): (y: int)
    ensures y == VerticalPosition(0) + melodyOffsetY
  {
    MajorScaleVerticalPositions[0] + melodyOffsetY
  }

  /** One drag `pointermove`: the offset moves by the pointer's travel since the
      anchor, and the anchor moves to the pointer. Returns (offset, anchor). */
  function DragStep(melodyOffsetY: int, dragStartY: int, clientY: int): (r: (int, int))
    ensures r.1 == clientY
    ensures r.0 - r.1 == melodyOffsetY - dragStartY
  {
    (melodyOffsetY + (clientY - dragStartY), clientY)
  }

  /** A run of drag `pointermove`s at the given pointer ys, one after another.
      Offset minus anchor stays what it was before the run. */
  function DragMoves(melodyOffsetY: int, dragStartY: int, moves: seq<int>): (r: (int, int))
    ensures r.0 - r.1 == melodyOffsetY - dragStartY
    ensures moves == [] ==> r == (melodyOffsetY, dragStartY)
    decreases moves
  {
    if moves == [] then (melodyOffsetY, dragStartY)
    else
      var (offsetY, anchorY) := DragStep(melodyOffsetY, dragStartY, moves[0]);
      DragMoves(offsetY, anchorY, moves[1..])
  }

  /** Incremental deltas telescope: after a run of moves the offset has moved by
      the last pointer y minus the anchor the run started from. */
  lemma {:induction false} DragMovesTelescope(melodyOffsetY: int, dragStartY: int, moves: seq<int>)
    requires moves != []
    ensures DragMoves(melodyOffsetY, dragStartY, moves).0 == melodyOffsetY + moves[|moves| - 1] - dragStartY
    ensures DragMoves(melodyOffsetY, dragStartY, moves).1 == moves[|moves| - 1]
    decreases moves
  {
    if |moves| > 1 {
      DragMovesTelescope(melodyOffsetY + (moves[0] - dragStartY), moves[0], moves[1..]);
    }
  }

  /** Pointer down at y 100, then moves at 130 and 110: the offset moves by +30 and
      then -20, a net +10. */
  lemma DragExample(melodyOffsetY: int)
    ensures DragMoves(melodyOffsetY, 100, [130, 110]) == (melodyOffsetY + 10, 110)
  {
    DragMovesTelescope(melodyOffsetY, 100, [130, 110]);
  }

  /** True when a canvas-local x lies on the melody's horizontal span, ends included. */
  predicate OnMelodySpan(xInCanvas: int, melodyXStart: int, noteCount: int)
  {
    melodyXStart <= xInCanvas <= melodyXStart + noteCount * MelodyStride
  }

  /** Every painted melody bar lies on the span: a press anywhere on a bar starts a drag. */
  lemma BarsOnMelodySpan(ys: seq<int>, melodyXStart: int, colour: Colour, i: int, xInCanvas: int)
    requires 0 <= i < |ys|
    requires Bars(ys, melodyXStart, colour)[i].x <= xInCanvas <= Bars(ys, melodyXStart, colour)[i].x + Bars(ys, melodyXStart, colour)[i].width
    ensures OnMelodySpan(xInCanvas, melodyXStart, |ys|)
  {
  }

  class MelodyWidget {
    /** Where the first melody bar starts (a sixth of the canvas width). */
    const melodyXStart: int
    /** The steps of the shown melody; empty until a melody has been shown. */
    var melodySemitonePattern: seq<int>
    var melodyRange: int
    var currentY: int
    var isDragging: bool
    var dragStartY: int
    var melodyOffsetY: int
    /** The bars painted since the canvas was last cleared, in painting order. */
    var canvas: seq<Bar>

    /** A drag can only start once a melody is shown. */
    ghost predicate Valid()
      reads this
    {
      isDragging ==> |melodySemitonePattern| > 0
    }

    /** The page load: the globals take their initial values and the staff is drawn. */
    constructor (xStart: int)
      ensures Valid()
      ensures melodyXStart == xStart && melodySemitonePattern == [] && melodyRange == 0
      ensures currentY == 0 && !isDragging && dragStartY == 0 && melodyOffsetY == InitialOffsetY()
      ensures canvas == ReferenceBars()
    {
      melodyXStart := xStart;
      melodySemitonePattern := [];
      melodyRange := 0;
      currentY := 0;
      isDragging := false;
      dragStartY := 0;
      melodyOffsetY := InitialOffsetY();
      canvas := [];
      new;
      DrawReferenceLines();
    }

    /** Paints one green bar per staff line. */
    method DrawReferenceLines()
      modifies this`canvas
      ensures canvas == old(canvas) + ReferenceBars()
    {
      var lines := MajorScaleVerticalPositions;
      for idx := 0 to |lines|
        invariant canvas == old(canvas) + ReferenceBars()[..idx]
      {
        var y := lines[idx];
        canvas := canvas + [Bar(0, y - 2, SolfegeLineLength, BarHeight, Green)];
        assert ReferenceBars()[..idx + 1] == ReferenceBars()[..idx] + [ReferenceBars()[idx]];
      }
    }

    /** The layout loop shared by `main` and `redrawCanvas`: walks the raw note
        chain from the offset start, paints one bar per note and leaves the last
        note's y in `currentY`. */
    method DrawMelody(colour: Colour)
      modifies this`canvas, this`currentY
      ensures canvas == old(canvas) + Bars(NoteYs(melodySemitonePattern, StartY(melodyOffsetY)), melodyXStart, colour)
      ensures currentY == LastY(NoteYs(melodySemitonePattern, StartY(melodyOffsetY)), StartY(melodyOffsetY))
    {
      var pattern := melodySemitonePattern;
      var startY := StartY(melodyOffsetY);
      ghost var ys := NoteYs(pattern, startY);
      currentY := startY;
      var melodyX := melodyXStart;
      for i := 0 to |pattern|
        invariant canvas == old(canvas) + Bars(ys[..i], melodyXStart, colour)
        invariant currentY == LastY(ys[..i], startY)
        invariant melodyX == melodyXStart + i * MelodyStride
      {
        var step := pattern[i];
        var nextY := currentY - step * SemitoneVerticalSpacing;
        NoteYsChain(pattern, startY, i);
        BarsSnoc(ys, i, melodyXStart, colour);
        canvas := canvas + [Bar(melodyX, nextY - 2, MelodyLineLength, BarHeight, colour)];
        currentY := nextY;
        melodyX := melodyX + MelodyLineLength + MelodyLineSeparation;
      }
      assert ys[..|pattern|] == ys;
    }

    /** `main`: computes the melody range from the normalised absolute semitones and
        paints the melody in blue over what is on the canvas. */
    method RunMain()
      requires |melodySemitonePattern| > 0
      modifies this`canvas, this`currentY, this`melodyRange
      ensures melodyRange == MelodyRange(Normalised(PrefixSums(melodySemitonePattern)))
      ensures canvas == old(canvas) + Bars(NoteYs(melodySemitonePattern, StartY(melodyOffsetY)), melodyXStart, Blue)
      ensures currentY == LastY(NoteYs(melodySemitonePattern, StartY(melodyOffsetY)), StartY(melodyOffsetY))
    {
      melodyRange := ComputeMelodyRange(melodySemitonePattern);
      DrawMelody(Blue);
    }

    /** The "show melody" click: the parsed steps replace the pattern, then `main` runs. */
    method ShowMelody(pattern: seq<int>)
      requires Valid()
      requires |pattern| > 0
      modifies this`melodySemitonePattern, this`canvas, this`currentY, this`melodyRange
      ensures Valid()
      ensures melodySemitonePattern == pattern
      ensures melodyRange == MelodyRange(Normalised(PrefixSums(pattern)))
      ensures canvas == old(canvas) + Bars(NoteYs(pattern, StartY(melodyOffsetY)), melodyXStart, Blue)
      ensures currentY == LastY(NoteYs(pattern, StartY(melodyOffsetY)), StartY(melodyOffsetY))
    {
      melodySemitonePattern := pattern;
      RunMain();
    }

    /** `redrawCanvas`: clears, repaints the staff and then the melody in `userLineColor`. */
    method RedrawCanvas(userLineColor: Colour)
      requires |melodySemitonePattern| > 0
      modifies this`canvas, this`currentY
      ensures canvas == ReferenceBars() + Bars(NoteYs(melodySemitonePattern, StartY(melodyOffsetY)), melodyXStart, userLineColor)
      ensures currentY == LastY(NoteYs(melodySemitonePattern, StartY(melodyOffsetY)), StartY(melodyOffsetY))
    {
      canvas := [];
      DrawReferenceLines();
      DrawMelody(userLineColor);
    }

    /** `checkMelodyAlignment`: when every raw note is within the tolerance of a
        staff line, repaints the staff and the snapped melody in green; otherwise
        paints nothing. Uses its own local `currentY`, so no field but the canvas changes. */
    method CheckMelodyAlignment()
      requires |melodySemitonePattern| > 0
      modifies this`canvas
      ensures canvas == if AllAligned(MajorScaleVerticalPositions, melodySemitonePattern, StartY(melodyOffsetY))
                        then ReferenceBars() + Bars(SnappedYs(MajorScaleVerticalPositions, melodySemitonePattern, StartY(melodyOffsetY)), melodyXStart, Green)
                        else old(canvas)
    {
      var allAligned := CheckPass(melodySemitonePattern, StartY(melodyOffsetY));
      if allAligned {
        canvas := [];
        DrawReferenceLines();
        DrawSnappedMelody();
      }
    }

    /** The snap pass of `checkMelodyAlignment`: each note moves from the previous
        snapped y by its step and is painted in green on the nearest staff line. */
    method DrawSnappedMelody()
      modifies this`canvas
      ensures canvas == old(canvas) + Bars(SnappedYs(MajorScaleVerticalPositions, melodySemitonePattern, StartY(melodyOffsetY)), melodyXStart, Green)
    {
      var pattern := melodySemitonePattern;
      var startY := StartY(melodyOffsetY);
      ghost var snapped := SnappedYs(MajorScaleVerticalPositions, pattern, startY);
      var currentY := startY;
      var melodyX := melodyXStart;
      for i := 0 to |pattern|
        invariant canvas == old(canvas) + Bars(snapped[..i], melodyXStart, Green)
        invariant currentY == LastY(snapped[..i], startY)
        invariant melodyX == melodyXStart + i * MelodyStride
      {
        var step := pattern[i];
        var nextY := currentY - step * SemitoneVerticalSpacing;
        var closestLineY := ClosestLine(nextY);
        SnapChain(MajorScaleVerticalPositions, pattern, startY, i);
        BarsSnoc(snapped, i, melodyXStart, Green);
        canvas := canvas + [Bar(melodyX, closestLineY - 2, MelodyLineLength, BarHeight, Green)];
        currentY := closestLineY;
        melodyX := melodyX + MelodyLineLength + MelodyLineSeparation;
      }
      assert snapped[..|pattern|] == snapped;
    }

    /** The "reset" click: clears the canvas, repaints the staff and restores the
        offset and the two y variables; the drag flag and the pattern stay. */
    method Reset()
      requires Valid()
      modifies this`canvas, this`currentY, this`dragStartY, this`melodyOffsetY
      ensures Valid()
      ensures canvas == ReferenceBars()
      ensures currentY == 0 && dragStartY == 0 && melodyOffsetY == InitialOffsetY()
      ensures isDragging == old(isDragging) && melodySemitonePattern == old(melodySemitonePattern)
    {
      canvas := [];
      DrawReferenceLines();
      currentY := 0;
      dragStartY := 0;
      melodyOffsetY := SemitoneVerticalSpacing * -6;
    }

    /** `pointerdown` at canvas-local x `xInCanvas`: starts a drag anchored at
        `clientY` when x is on the melody's span, and otherwise changes nothing. */
    method PointerDown(xInCanvas: int, clientY: int)
      requires Valid()
      requires |melodySemitonePattern| > 0
      modifies this`isDragging, this`dragStartY
      ensures Valid()
      ensures OnMelodySpan(xInCanvas, melodyXStart, |melodySemitonePattern|) ==> isDragging && dragStartY == clientY
      ensures !OnMelodySpan(xInCanvas, melodyXStart, |melodySemitonePattern|) ==>
                isDragging == old(isDragging) && dragStartY == old(dragStartY)
    {
      if xInCanvas >= melodyXStart &&
         xInCanvas <= melodyXStart + |melodySemitonePattern| * (MelodyLineLength + MelodyLineSeparation)
      {
        isDragging := true;
        dragStartY := clientY;
      }
    }

    /** `pointermove` at `clientY`: while dragging, one drag step followed by a
        blue repaint; otherwise nothing changes. */
    method PointerMove(clientY: int)
      requires Valid()
      modifies this`melodyOffsetY, this`dragStartY, this`canvas, this`currentY
      ensures Valid()
      ensures old(isDragging) ==> (melodyOffsetY, dragStartY) == DragStep(old(melodyOffsetY), old(dragStartY), clientY)
      ensures old(isDragging) ==>
                canvas == ReferenceBars() + Bars(NoteYs(melodySemitonePattern, StartY(melodyOffsetY)), melodyXStart, Blue) &&
                currentY == LastY(NoteYs(melodySemitonePattern, StartY(melodyOffsetY)), StartY(melodyOffsetY))
      ensures !old(isDragging) ==> unchanged(this)
    {
      if isDragging {
        var deltaY := clientY - dragStartY;
        melodyOffsetY := melodyOffsetY + deltaY;
        dragStartY := clientY;
        RedrawCanvas(Blue);
      }
    }

    /** `pointerup`: the alignment check listener runs first, on every release,
        then the listener that ends the drag. */
    method PointerUp()
      requires Valid()
      requires |melodySemitonePattern| > 0
      modifies this`canvas, this`isDragging
      ensures Valid()
      ensures canvas == if AllAligned(MajorScaleVerticalPositions, melodySemitonePattern, StartY(melodyOffsetY))
                        then ReferenceBars() + Bars(SnappedYs(MajorScaleVerticalPositions, melodySemitonePattern, StartY(melodyOffsetY)), melodyXStart, Green)
                        else old(canvas)
      ensures !isDragging
    {
      CheckMelodyAlignment();
      isDragging := false;
    }

    /** `pointerleave`: ends the drag without an alignment check. */
    method PointerLeave()
      requires Valid()
      modifies this`isDragging
      ensures Valid()
      ensures !isDragging
    {
      isDragging := false;
    }
  }

  /** A client run: show a one-note melody, drag it down by 10 pixels in two moves,
      release, and reset. */
  method DragScenario(xStart: int)
  {
    var widget := new MelodyWidget(xStart);
    widget.ShowMelody([0]);
    widget.PointerDown(xStart, 100);
    assert widget.isDragging && widget.dragStartY == 100;
    widget.PointerMove(130);
    widget.PointerMove(110);
    assert widget.melodyOffsetY == InitialOffsetY() + 10;
    widget.PointerUp();
    assert !widget.isDragging;
    widget.PointerMove(500);
    assert widget.melodyOffsetY == InitialOffsetY() + 10;
    widget.Reset();
    assert widget.melodyOffsetY == InitialOffsetY() && widget.dragStartY == 0;
  }
}
