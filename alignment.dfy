/** `checkMelodyAlignment` without its drawing: the check pass that decides
    whether every note lies near a reference line, and the snap pass that moves
    each note onto its nearest line, chaining from the previous snapped note.
    The rules are stated for any list of line positions `lines`; the widget uses
    the staff's `MajorScaleVerticalPositions`. */
module Alignment {
  import opened Staff
  import opened Layout

  /** Largest distance, in pixels and inclusive, at which a note counts as on a line. */
  const Tolerance: int := 5

  /** Distance from line k to y. */
  function LineDistance(lines: seq<int>, k: int, y: int): nat
    requires 0 <= k < |lines|
  {
    Abs(lines[k] - y)
  }

  /** The `some(...)` test: a line lies within the tolerance of y. */
  predicate Aligned(lines: seq<int>, y: int)
  {
    exists k :: 0 <= k < |lines| && LineDistance(lines, k, y) <= Tolerance
  }

  /** Every note of the raw chain is aligned. */
  predicate AllAligned(lines: seq<int>, pattern: seq<int>, startY: int)
  {
    forall i :: 0 <= i < |pattern| ==> Aligned(lines, NoteYs(pattern, startY)[i])
  }

  /** Line r is the first (lowest index) among lines 0..n-1 whose distance to y is
      least among lines 0..n-1; r is 0 when nothing has been scanned yet. */
  predicate FirstNearest(lines: seq<int>, y: int, r: int, n: int)
  {
    0 <= n <= |lines| && 0 <= r < |lines| && (r == 0 || r < n) &&
    (forall j :: 0 <= j < n ==> LineDistance(lines, j, y) >= LineDistance(lines, r, y)) &&
    (forall j :: 0 <= j < r ==> LineDistance(lines, j, y) > LineDistance(lines, r, y))
  }

  /** The scan for the closest line from index `k` on, with `best` the line kept so far;
      a line replaces it only when strictly closer. */
  function NearestIndexFrom(lines: seq<int>, y: int, k: int, best: int): (r: int)
    requires 0 <= k <= |lines| && 0 <= best < |lines|
    ensures 0 <= r < |lines|
    decreases |lines| - k
  {
    if k == |lines| then best
    else NearestIndexFrom(lines, y, k + 1, if LineDistance(lines, k, y) < LineDistance(lines, best, y) then k else best)
  }

  /** The scan keeps the first nearest line among those it has seen. */
  lemma {:induction false} NearestIndexFromIsFirstNearest(lines: seq<int>, y: int, k: int, best: int)
    requires FirstNearest(lines, y, best, k)
    ensures FirstNearest(lines, y, NearestIndexFrom(lines, y, k, best), |lines|)
    decreases |lines| - k
  {
    if k < |lines| {
      var next := if LineDistance(lines, k, y) < LineDistance(lines, best, y) then k else best;
      NearestIndexFromIsFirstNearest(lines, y, k + 1, next);
    }
  }

  /** The index of the line a note at y snaps to: the scan starts with line 0. */
  function NearestIndex(lines: seq<int>, y: int): (r: int)
    requires |lines| > 0
    ensures 0 <= r < |lines|
  {
    NearestIndexFrom(lines, y, 0, 0)
  }

  /** No line is strictly closer to y than the one it snaps to, and every line
      before it is strictly farther: on a tie the lowest index wins. */
  lemma NearestIndexIsFirstNearest(lines: seq<int>, y: int)
    requires |lines| > 0
    ensures 0 <= NearestIndex(lines, y) < |lines|
    ensures forall j :: 0 <= j < |lines| ==> LineDistance(lines, j, y) >= LineDistance(lines, NearestIndex(lines, y), y)
    ensures forall j :: 0 <= j < NearestIndex(lines, y) ==> LineDistance(lines, j, y) > LineDistance(lines, NearestIndex(lines, y), y)
  {
    NearestIndexFromIsFirstNearest(lines, y, 0, 0);
  }

  /** The y of the line a note at y snaps to. */
  function NearestLine(lines: seq<int>, y: int): int
    requires |lines| > 0
  {
    lines[NearestIndex(lines, y)]
  }

  /** The snap target is a line and no line is strictly closer to y. */
  lemma NearestLineIsClosest(lines: seq<int>, y: int)
    requires |lines| > 0
    ensures NearestLine(lines, y) in lines
    ensures forall j :: 0 <= j < |lines| ==> Abs(lines[j] - y) >= Abs(NearestLine(lines, y) - y)
  {
    NearestIndexIsFirstNearest(lines, y);
    forall j | 0 <= j < |lines|
      ensures Abs(lines[j] - y) >= Abs(NearestLine(lines, y) - y)
    {
      assert LineDistance(lines, j, y) >= LineDistance(lines, NearestIndex(lines, y), y);
    }
  }

  /** The `some(...)` test and the snap agree: y is aligned exactly when the line
      it snaps to lies within the tolerance. */
  lemma AlignedIffNearestWithin(lines: seq<int>, y: int)
    requires |lines| > 0
    ensures Aligned(lines, y) <==> Abs(NearestLine(lines, y) - y) <= Tolerance
  {
    NearestIndexIsFirstNearest(lines, y);
    if Abs(NearestLine(lines, y) - y) <= Tolerance {
      assert LineDistance(lines, NearestIndex(lines, y), y) <= Tolerance;
    }
  }

  /** The closest-line rule picks exactly one line. */
  lemma FirstNearestUnique(lines: seq<int>, y: int, r: int, s: int)
    requires FirstNearest(lines, y, r, |lines|)
    requires FirstNearest(lines, y, s, |lines|)
    ensures r == s
  {
    var distanceR, distanceS := LineDistance(lines, r, y), LineDistance(lines, s, y);
    assert distanceR == distanceS;
  }

  /** Lines at least this far apart cannot both lie within twice the tolerance of one point. */
  ghost predicate WellSeparated(lines: seq<int>)
  {
    forall i, j :: 0 <= i < |lines| && 0 <= j < |lines| && i != j ==> Abs(lines[i] - lines[j]) > 4 * Tolerance
  }

  /** The staff lines are well separated. */
  lemma StaffWellSeparated()
    ensures WellSeparated(MajorScaleVerticalPositions)
  {
    forall i, j | 0 <= i < |MajorScaleVerticalPositions| && 0 <= j < |MajorScaleVerticalPositions| && i != j
      ensures Abs(MajorScaleVerticalPositions[i] - MajorScaleVerticalPositions[j]) > 4 * Tolerance
    {
      ReferenceLinesSeparated(i, j);
    }
  }

  /** On well-separated lines, a line within twice the tolerance of y is the line y snaps to. */
  lemma NearestLineWithin(lines: seq<int>, y: int, k: int)
    requires WellSeparated(lines)
    requires 0 <= k < |lines|
    requires LineDistance(lines, k, y) <= 2 * Tolerance
    ensures NearestIndex(lines, y) == k
  {
    NearestIndexIsFirstNearest(lines, y);
    var r := NearestIndex(lines, y);
    var gap := Abs(lines[r] - lines[k]);
    assert gap <= 4 * Tolerance;
  }

  /** The snap pass: note i is placed on the line nearest to the previous snapped
      note moved by step i. */
  function SnappedYs(lines: seq<int>, pattern: seq<int>, startY: int): (ys: seq<int>)
    requires |lines| > 0
    ensures |ys| == |pattern|
  {
    if pattern == [] then []
    else
      var closestLineY := NearestLine(lines, startY - pattern[0] * SemitoneVerticalSpacing);
      [closestLineY] + SnappedYs(lines, pattern[1..], closestLineY)
  }

  /** Each snapped note is one of the lines, namely the one nearest to the previous
      snapped note (the start for note 0) moved by its step. */
  lemma {:induction false} SnapChain(lines: seq<int>, pattern: seq<int>, startY: int, i: int)
    requires |lines| > 0
    requires 0 <= i < |pattern|
    ensures SnappedYs(lines, pattern, startY)[i] in lines
    ensures SnappedYs(lines, pattern, startY)[i]
         == NearestLine(lines, (if i == 0 then startY else SnappedYs(lines, pattern, startY)[i - 1]) - pattern[i] * SemitoneVerticalSpacing)
  {
    var first := NearestLine(lines, startY - pattern[0] * SemitoneVerticalSpacing);
    var rest := pattern[1..];
    assert SnappedYs(lines, pattern, startY) == [first] + SnappedYs(lines, rest, first);
    if i > 0 {
      SnapChain(lines, rest, first, i - 1);
      assert pattern[i] == rest[i - 1];
      assert SnappedYs(lines, pattern, startY)[i] == SnappedYs(lines, rest, first)[i - 1];
      var prev := if i == 1 then first else SnappedYs(lines, rest, first)[i - 2];
      assert SnappedYs(lines, pattern, startY)[i - 1] == prev;
    } else {
      NearestIndexIsFirstNearest(lines, startY - pattern[0] * SemitoneVerticalSpacing);
    }
  }

  /** A note moved by at most the tolerance from an aligned position snaps to the
      same line as that position, and that line is within the tolerance of it. */
  lemma SnapNearAligned(lines: seq<int>, rawY: int, snapY: int)
    requires WellSeparated(lines)
    requires Aligned(lines, rawY)
    requires Abs(snapY - rawY) <= Tolerance
    ensures NearestLine(lines, snapY) == NearestLine(lines, rawY)
    ensures Abs(NearestLine(lines, rawY) - rawY) <= Tolerance
  {
    var k :| 0 <= k < |lines| && LineDistance(lines, k, rawY) <= Tolerance;
    NearestLineWithin(lines, rawY, k);
    NearestLineWithin(lines, snapY, k);
  }

  /** The raw chain after its first note is aligned whenever the whole chain is. */
  lemma AllAlignedTail(lines: seq<int>, pattern: seq<int>, startY: int)
    requires pattern != [] && AllAligned(lines, pattern, startY)
    ensures Aligned(lines, startY - pattern[0] * SemitoneVerticalSpacing)
    ensures AllAligned(lines, pattern[1..], startY - pattern[0] * SemitoneVerticalSpacing)
  {
    var rawY := startY - pattern[0] * SemitoneVerticalSpacing;
    assert NoteYs(pattern, startY) == [rawY] + NoteYs(pattern[1..], rawY);
    assert Aligned(lines, NoteYs(pattern, startY)[0]);
    forall i | 0 <= i < |pattern| - 1 ensures Aligned(lines, NoteYs(pattern[1..], rawY)[i]) {
      assert NoteYs(pattern[1..], rawY)[i] == NoteYs(pattern, startY)[i + 1];
    }
  }

  /** Snapping from a start that drifted from the raw start by at most the tolerance
      still lands aligned note i on the line next to its raw position. */
  lemma {:induction false} SnapDrift(lines: seq<int>, pattern: seq<int>, rawStartY: int, snapStartY: int, i: int)
    requires WellSeparated(lines)
    requires AllAligned(lines, pattern, rawStartY)
    requires Abs(snapStartY - rawStartY) <= Tolerance
    requires 0 <= i < |pattern|
    ensures |lines| > 0
    ensures SnappedYs(lines, pattern, snapStartY)[i] == NearestLine(lines, NoteYs(pattern, rawStartY)[i])
    ensures Abs(SnappedYs(lines, pattern, snapStartY)[i] - NoteYs(pattern, rawStartY)[i]) <= Tolerance
  {
    var rawY := rawStartY - pattern[0] * SemitoneVerticalSpacing;
    var snapY := snapStartY - pattern[0] * SemitoneVerticalSpacing;
    AllAlignedTail(lines, pattern, rawStartY);
    SnapNearAligned(lines, rawY, snapY);
    var lineY := NearestLine(lines, rawY);
    if i > 0 {
      var rest := pattern[1..];
      SnapDrift(lines, rest, rawY, lineY, i - 1);
      assert NoteYs(pattern, rawStartY)[i] == NoteYs(rest, rawY)[i - 1];
      assert SnappedYs(lines, pattern, snapStartY)[i] == SnappedYs(lines, rest, lineY)[i - 1];
    }
  }

  /** When every raw note is aligned, the chained snap puts each note on the line
      next to its raw position: chaining from the snapped note changes nothing. */
  lemma SnapFollowsRawNotes(lines: seq<int>, pattern: seq<int>, startY: int)
    requires WellSeparated(lines)
    requires AllAligned(lines, pattern, startY)
    requires |lines| > 0
    ensures forall i :: 0 <= i < |pattern| ==>
      SnappedYs(lines, pattern, startY)[i] == NearestLine(lines, NoteYs(pattern, startY)[i]) &&
      Abs(SnappedYs(lines, pattern, startY)[i] - NoteYs(pattern, startY)[i]) <= Tolerance
  {
    forall i | 0 <= i < |pattern| {
      SnapDrift(lines, pattern, startY, startY, i);
    }
  }

  /** A melody whose notes already sit on lines is a fixed point of snapping. */
  lemma SnapFixedPoint(lines: seq<int>, pattern: seq<int>, startY: int)
    requires WellSeparated(lines)
    requires |lines| > 0
    requires forall i :: 0 <= i < |pattern| ==> NoteYs(pattern, startY)[i] in lines
    ensures AllAligned(lines, pattern, startY)
    ensures SnappedYs(lines, pattern, startY) == NoteYs(pattern, startY)
  {
    var ys := NoteYs(pattern, startY);
    forall i | 0 <= i < |pattern| ensures Aligned(lines, ys[i]) && NearestLine(lines, ys[i]) == ys[i] {
      var k :| 0 <= k < |lines| && lines[k] == ys[i];
      assert LineDistance(lines, k, ys[i]) == 0;
      NearestLineWithin(lines, ys[i], k);
    }
    SnapFollowsRawNotes(lines, pattern, startY);
  }

  /** n steps of zero semitones. */
  function ZeroSteps(n: nat): (steps: seq<int>)
    ensures |steps| == n
  {
    seq(n, _ => 0)
  }

  /** A melody of zero steps stays on its start y throughout. */
  lemma {:induction false} FlatMelodyStays(n: nat, startY: int)
    ensures forall i :: 0 <= i < n ==> NoteYs(ZeroSteps(n), startY)[i] == startY
  {
    if n > 0 {
      var steps := ZeroSteps(n);
      FlatMelodyStays(n - 1, startY);
      assert steps[1..] == ZeroSteps(n - 1);
      assert NoteYs(steps, startY) == [startY] + NoteYs(steps[1..], startY);
    }
  }

  /** All-zero steps at the initial position of the first staff line: every note is
      on that line, the check passes and snapping moves nothing. */
  lemma FlatMelodyAligned(n: nat)
    ensures AllAligned(MajorScaleVerticalPositions, ZeroSteps(n), MajorScaleVerticalPositions[0])
    ensures SnappedYs(MajorScaleVerticalPositions, ZeroSteps(n), MajorScaleVerticalPositions[0])
         == seq(n, _ => MajorScaleVerticalPositions[0])
  {
    var startY := MajorScaleVerticalPositions[0];
    FlatMelodyStays(n, startY);
    StaffWellSeparated();
    SnapFixedPoint(MajorScaleVerticalPositions, ZeroSteps(n), startY);
    assert NoteYs(ZeroSteps(n), startY) == seq(n, _ => startY);
  }

  /** The check pass: walks the raw note chain and stops at the first note with no
      staff line within the tolerance. */
  method CheckPass(pattern: seq<int>, startY: int) returns (allAligned: bool)
    ensures allAligned <==> AllAligned(MajorScaleVerticalPositions, pattern, startY)
  {
    allAligned := true;
    var currentY := startY;
    var i := 0;
    while i < |pattern|
      invariant 0 <= i <= |pattern|
      invariant currentY == LastY(NoteYs(pattern, startY)[..i], startY)
      invariant forall j :: 0 <= j < i ==> Aligned(MajorScaleVerticalPositions, NoteYs(pattern, startY)[j])
    {
      var step := pattern[i];
      var nextY := currentY - step * SemitoneVerticalSpacing;
      NoteYsChain(pattern, startY, i);
      var isAligned := Aligned(MajorScaleVerticalPositions, nextY);
      if !isAligned {
        allAligned := false;
        break;
      }
      currentY := nextY;
      i := i + 1;
    }
  }

  /** The inner scan of the snap pass: starts from staff line 0 and replaces the
      candidate only by a strictly closer line. */
  method ClosestLine(y: int) returns (closestLineY: int)
    ensures closestLineY == NearestLine(MajorScaleVerticalPositions, y)
  {
    var lines := MajorScaleVerticalPositions;
    closestLineY := lines[0];
    var minDiff := Abs(closestLineY - y);
    ghost var best := 0;
    for k := 0 to |lines|
      invariant FirstNearest(lines, y, best, k)
      invariant closestLineY == lines[best] && minDiff == LineDistance(lines, best, y)
    {
      var diff := Abs(lines[k] - y);
      if diff < minDiff {
        minDiff := diff;
        closestLineY := lines[k];
        best := k;
      }
    }
    NearestIndexIsFirstNearest(lines, y);
    FirstNearestUnique(lines, y, best, NearestIndex(lines, y));
  }
}
