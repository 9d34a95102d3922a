/** Melody layout: absolute semitones (prefix sums of the steps), the in-place
    normalisation of those sums, the melody range, and the chain of note
    positions and bars that `main` and `redrawCanvas` draw. */
module Layout {
  import opened Canvas
  import opened Staff

  /** Horizontal distance from one melody bar to the next. */
  const MelodyStride: int := MelodyLineLength + MelodyLineSeparation

  /** Reference definition of a sum, independent of the running scan below. */
  function Sum(s: seq<int>): int
  {
    if s == [] then 0 else s[0] + Sum(s[1..])
  }

  /** The running values of `reduce((acc, step) => acc + step, acc)`, one per step. */
  function Scan(acc: int, pattern: seq<int>): (sums: seq<int>)
    ensures |sums| == |pattern|
    decreases pattern
  {
    if pattern == [] then [] else [acc + pattern[0]] + Scan(acc + pattern[0], pattern[1..])
  }

  /** The absolute semitone of every note, before normalisation. */
  function PrefixSums(pattern: seq<int>): (sums: seq<int>)
    ensures |sums| == |pattern|
  {
    Scan(0, pattern)
  }

  /** Each running value is the start value plus the sum of the steps so far. */
  lemma {:induction false} ScanIsSum(acc: int, pattern: seq<int>, i: int)
    requires 0 <= i < |pattern|
    ensures Scan(acc, pattern)[i] == acc + Sum(pattern[..i + 1])
    decreases pattern
  {
    if i > 0 {
      ScanIsSum(acc + pattern[0], pattern[1..], i - 1);
      assert pattern[1..][..i] == pattern[..i + 1][1..];
    }
  }

  /** Absolute semitone i is the sum of steps 0..i, and each one extends the previous one by its step. */
  lemma PrefixSumsChain(pattern: seq<int>, i: int)
    requires 0 <= i < |pattern|
    ensures PrefixSums(pattern)[i] == Sum(pattern[..i + 1])
    ensures PrefixSums(pattern)[i] == (if i == 0 then 0 else PrefixSums(pattern)[i - 1]) + pattern[i]
  {
    ScanIsSum(0, pattern, i);
    if i > 0 {
      ScanIsSum(0, pattern, i - 1);
      SumSnoc(pattern[..i + 1]);
      assert pattern[..i + 1][..i] == pattern[..i];
    }
  }

  lemma {:induction false} SumSnoc(s: seq<int>)
    requires |s| > 0
    ensures Sum(s) == Sum(s[..|s| - 1]) + s[|s| - 1]
  {
    if |s| > 1 {
      SumSnoc(s[1..]);
      assert s[1..][..|s| - 2] == s[..|s| - 1][1..];
    }
  }

  /** `Math.min(...s)` on a non-empty list. */
  function SeqMin(s: seq<int>): (m: int)
    requires |s| > 0
    ensures m in s
    ensures forall k :: 0 <= k < |s| ==> m <= s[k]
  {
    if |s| == 1 then s[0]
    else
      var rest := SeqMin(s[1..]);
      if s[0] <= rest then s[0] else rest
  }

  /** `Math.max(...s)` on a non-empty list. */
  function SeqMax(s: seq<int>): (m: int)
    requires |s| > 0
    ensures m in s
    ensures forall k :: 0 <= k < |s| ==> s[k] <= m
  {
    if |s| == 1 then s[0]
    else
      var rest := SeqMax(s[1..]);
      if s[0] >= rest then s[0] else rest
  }

  /** The normalisation loop from index `i` on: entry i is shifted by the minimum
      of the list as it stands at that moment, already shifted entries included. */
  function NormaliseFrom(s: seq<int>, i: int): (r: seq<int>)
    requires 0 <= i <= |s|
    ensures |r| == |s|
    decreases |s| - i
  {
    if i == |s| then s else NormaliseFrom(s[i := s[i] + SeqMin(s) * -1], i + 1)
  }

  function Normalised(s: seq<int>): (r: seq<int>)
    ensures |r| == |s|
  {
    NormaliseFrom(s, 0)
  }

  /** Entries before the loop index are never touched again. */
  lemma {:induction false} NormaliseKeepsDone(s: seq<int>, i: int, k: int)
    requires 0 <= k < i <= |s|
    ensures NormaliseFrom(s, i)[k] == s[k]
    decreases |s| - i
  {
    if i < |s| {
      NormaliseKeepsDone(s[i := s[i] + SeqMin(s) * -1], i + 1, k);
    }
  }

  /** Entry i ends up as its value when the loop reaches it, minus the minimum of the list at that moment. */
  lemma {:induction false} NormaliseStep(s: seq<int>, i: int)
    requires 0 <= i < |s|
    ensures NormaliseFrom(s, i)[i] == s[i] - SeqMin(s)
  {
    NormaliseKeepsDone(s[i := s[i] + SeqMin(s) * -1], i + 1, i);
  }

  /** Once the loop has passed an entry it is non-negative, so every entry of the result is. */
  lemma {:induction false} NormaliseFromNonNegative(s: seq<int>, i: int)
    requires 0 <= i <= |s|
    requires forall k :: 0 <= k < i ==> s[k] >= 0
    ensures forall k :: 0 <= k < |s| ==> NormaliseFrom(s, i)[k] >= 0
    decreases |s| - i
  {
    if i < |s| {
      NormaliseFromNonNegative(s[i := s[i] + SeqMin(s) * -1], i + 1);
    }
  }

  lemma NormalisedNonNegative(s: seq<int>)
    ensures forall k :: 0 <= k < |s| ==> Normalised(s)[k] >= 0
  {
    NormaliseFromNonNegative(s, 0);
  }

  /** The loop is not a plain shift to zero: steps [5, -2] have absolute
      semitones [5, 3], which normalise to [2, 1] (not [2, 0]), range 1. */
  lemma NormaliseExample()
    ensures PrefixSums([5, -2]) == [5, 3]
    ensures Normalised([5, 3]) == [2, 1]
    ensures MelodyRange([2, 1]) == 1
  {
    assert SeqMin([5, 3]) == 3 by { assert [5, 3][1..] == [3]; }
    assert SeqMin([2, 3]) == 2 by { assert [2, 3][1..] == [3]; }
    assert NormaliseFrom([5, 3], 0) == NormaliseFrom([2, 3], 1);
    assert NormaliseFrom([2, 3], 1) == NormaliseFrom([2, 1], 2);
  }

  /** `Math.max(...s) - Math.min(...s)`: the largest difference between two entries. */
  function MelodyRange(s: seq<int>): (r: int)
    requires |s| > 0
    ensures r >= 0
    ensures exists i, j :: 0 <= i < |s| && 0 <= j < |s| && r == s[i] - s[j]
    ensures forall i, j :: 0 <= i < |s| && 0 <= j < |s| ==> s[i] - s[j] <= r
  {
    SeqMax(s) - SeqMin(s)
  }

  /** The y of every melody note: each note moves `step` spacings up from the previous one. */
  function NoteYs(pattern: seq<int>, startY: int): (ys: seq<int>)
    ensures |ys| == |pattern|
  {
    if pattern == [] then []
    else
      var nextY := startY - pattern[0] * SemitoneVerticalSpacing;
      [nextY] + NoteYs(pattern[1..], nextY)
  }

  /** Note i sits `pattern[i]` spacings above note i - 1 (the start for note 0). */
  lemma {:induction false} NoteYsChain(pattern: seq<int>, startY: int, i: int)
    requires 0 <= i < |pattern|
    ensures NoteYs(pattern, startY)[i]
         == (if i == 0 then startY else NoteYs(pattern, startY)[i - 1]) - pattern[i] * SemitoneVerticalSpacing
  {
    if i > 0 {
      NoteYsChain(pattern[1..], startY - pattern[0] * SemitoneVerticalSpacing, i - 1);
    }
  }

  /** Note i sits as many spacings above the start as its absolute semitone. */
  lemma {:induction false} NoteYsFromAbsolute(pattern: seq<int>, startY: int, i: int)
    requires 0 <= i < |pattern|
    ensures NoteYs(pattern, startY)[i] == startY - PrefixSums(pattern)[i] * SemitoneVerticalSpacing
  {
    NoteYsMatchScan(pattern, startY, 0, i);
  }

  lemma {:induction false} NoteYsMatchScan(pattern: seq<int>, startY: int, acc: int, i: int)
    requires 0 <= i < |pattern|
    ensures NoteYs(pattern, startY)[i] == startY - (Scan(acc, pattern)[i] - acc) * SemitoneVerticalSpacing
    decreases pattern
  {
    if i > 0 {
      NoteYsMatchScan(pattern[1..], startY - pattern[0] * SemitoneVerticalSpacing, acc + pattern[0], i - 1);
    }
  }

  lemma NoteYsExample()
    ensures NoteYs([2, 2, 3], 500) == [400, 300, 150]
  {
    assert [2, 2, 3][1..] == [2, 3];
    assert [2, 3][1..] == [3];
  }

  /** The y the layout loop leaves in `currentY`: the last note, or the start when there is none. */
  function LastY(ys: seq<int>, startY: int): int
  {
    if ys == [] then startY else ys[|ys| - 1]
  }

  /** The bars for notes at `ys`: bar i starts at `xStart + 70 * i`, is 60 wide,
      and is centred on `ys[i]`. */
  function Bars(ys: seq<int>, xStart: int, colour: Colour): (bars: seq<Bar>)
    ensures |bars| == |ys|
  {
    seq(|ys|, i requires 0 <= i < |ys| =>
      Bar(xStart + i * MelodyStride, ys[i] - 2, MelodyLineLength, BarHeight, colour))
  }

  /** Painting the bar for note i extends the bars of notes 0..i-1. */
  lemma BarsSnoc(ys: seq<int>, i: int, xStart: int, colour: Colour)
    requires 0 <= i < |ys|
    ensures Bars(ys[..i + 1], xStart, colour)
         == Bars(ys[..i], xStart, colour) + [Bar(xStart + i * MelodyStride, ys[i] - 2, MelodyLineLength, BarHeight, colour)]
  {
  }

  /** Fills an array with the absolute semitones, one push per step (the `reduce` in `main`). */
  method AbsoluteSemitones(pattern: seq<int>) returns (a: array<int>)
    ensures fresh(a)
    ensures a[..] == PrefixSums(pattern)
  {
    a := new int[|pattern|];
    var acc := 0;
    for i := 0 to |pattern|
      invariant forall k :: 0 <= k < i ==> a[k] == PrefixSums(pattern)[k]
      invariant acc == if i == 0 then 0 else PrefixSums(pattern)[i - 1]
    {
      var absolute := acc + pattern[i];
      PrefixSumsChain(pattern, i);
      a[i] := absolute;
      acc := absolute;
    }
  }

  /** The `forEach` that shifts every entry by the current minimum, in place. */
  method NormaliseInPlace(a: array<int>)
    modifies a
    ensures a[..] == Normalised(old(a[..]))
  {
    for idx := 0 to a.Length
      invariant NormaliseFrom(a[..], idx) == Normalised(old(a[..]))
    {
      ghost var shifted := a[..][idx := a[idx] + SeqMin(a[..]) * -1];
      a[idx] := a[idx] + SeqMin(a[..]) * -1;
      assert a[..] == shifted;
    }
  }

  /** The first half of `main`: absolute semitones, normalised in place, then their range. */
  method ComputeMelodyRange(pattern: seq<int>) returns (melodyRange: int)
    requires |pattern| > 0
    ensures melodyRange == MelodyRange(Normalised(PrefixSums(pattern)))
  {
    var melodyAbsoluteSemitones := AbsoluteSemitones(pattern);
    NormaliseInPlace(melodyAbsoluteSemitones);
    melodyRange := MelodyRange(melodyAbsoluteSemitones[..]);
  }
}
