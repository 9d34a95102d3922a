/** The reference staff: one major-scale octave of solfege lines, laid out
    vertically from a fixed semitone template. */
module Staff {
  import opened Canvas

  const SemitoneVerticalSpacing: int := 50
  const SolfegeLineLength: int := 100
  const MelodyLineLength: int := 60
  const MelodyLineSeparation: int := 10

  const MajorScaleSemitones: seq<int> := [0, 2, 4, 5, 7, 9, 11, 12]
  const MajorScaleSolfege: seq<string> := ["Do", "Re", "Mi", "Fa", "Sol", "La", "Ti", "Do"]

  /** The y coordinate (growing downwards) of the line for `semitone`:
      semitone 0 sits 14 spacings down, each semitone up moves one spacing. */
  function VerticalPosition(semitone: int): (y: int)
    ensures y == 700 - semitone * SemitoneVerticalSpacing
  {
    SemitoneVerticalSpacing * 2 + 12 * SemitoneVerticalSpacing - semitone * SemitoneVerticalSpacing
  }

  /** The y coordinates of a list of semitones, element by element (the `map`). */
  function PositionsOf(semitones: seq<int>): (ys: seq<int>)
    ensures |ys| == |semitones|
  {
    seq(|semitones|, i requires 0 <= i < |semitones| => VerticalPosition(semitones[i]))
  }

  const MajorScaleVerticalPositions: seq<int> := PositionsOf(MajorScaleSemitones)

  ghost predicate StrictlyIncreasing(s: seq<int>)
  {
    forall i, j :: 0 <= i < j < |s| ==> s[i] < s[j]
  }

  ghost predicate StrictlyDecreasing(s: seq<int>)
  {
    forall i, j :: 0 <= i < j < |s| ==> s[i] > s[j]
  }

  function Abs(x: int): nat
  {
    if x < 0 then -x else x
  }

  /** A higher semitone is drawn higher up: a strictly increasing template
      gives strictly decreasing line positions. */
  lemma PositionsDecreaseAsSemitonesRise(semitones: seq<int>)
    requires StrictlyIncreasing(semitones)
    ensures StrictlyDecreasing(PositionsOf(semitones))
  {
    forall i, j | 0 <= i < j < |semitones|
      ensures PositionsOf(semitones)[i] > PositionsOf(semitones)[j]
    {
      assert semitones[i] * SemitoneVerticalSpacing < semitones[j] * SemitoneVerticalSpacing;
    }
  }

  /** The concrete reference positions of the major-scale staff. */
  lemma ReferencePositions()
    ensures MajorScaleVerticalPositions == [700, 600, 500, 450, 350, 250, 150, 100]
    ensures StrictlyDecreasing(MajorScaleVerticalPositions)
  {
    PositionsDecreaseAsSemitonesRise(MajorScaleSemitones);
  }

  /** Two different reference lines are at least one spacing apart. */
  lemma ReferenceLinesSeparated(i: int, j: int)
    requires 0 <= i < |MajorScaleVerticalPositions| && 0 <= j < |MajorScaleVerticalPositions|
    requires i != j
    ensures Abs(MajorScaleVerticalPositions[i] - MajorScaleVerticalPositions[j]) >= SemitoneVerticalSpacing
  {
    ReferencePositions();
  }

  /** What `drawReferenceLines` paints: one green bar of the solfege length per
      reference line, at the left edge, centred on the line's y. */
  function ReferenceBars(): (bars: seq<Bar>)
    ensures |bars| == |MajorScaleSemitones|
  {
    seq(|MajorScaleVerticalPositions|,
        k requires 0 <= k < |MajorScaleVerticalPositions| =>
          Bar(0, MajorScaleVerticalPositions[k] - 2, SolfegeLineLength, BarHeight, Green))
  }
}
