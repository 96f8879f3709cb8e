/** Exactly when the emitted hunks turn the base lines into the desired lines. */
module PatchExactness {
  import opened Utf16
  import opened Results
  import opened ReviewAnchors
  import opened Lines
  import opened PatchWindows
  import opened PatchHunks
  import opened PatchAlignment

  /** A base text, a desired text, the resolved spans between them, and what is computed from these. */
  datatype Edit = Edit(base: Text, desired: Text, spans: seq<Resolved>, windows: seq<Window>,
                       merged: seq<Window>, firsts: seq<nat>, baseLines: seq<Text>, desiredLines: seq<Text>)
  {
    predicate Texts() {
      Edits(base, desired, spans) && windows == WindowsOf(base, desired, spans)
      && baseLines == SplitLines(base) && desiredLines == SplitLines(desired)
    }
    ghost predicate Valid() {
      Texts() && Grouped(windows, merged, firsts) && forall k :: 0 <= k < |merged| ==> InFiles(k)
    }
    predicate InFiles(k: nat)
      requires k < |merged|
    {
      && merged[k].baseStart < merged[k].baseEnd <= |baseLines|
      && merged[k].desiredStart <= merged[k].desiredEnd <= |desiredLines|
    }
  }

  function MakeEdit(base: Text, desired: Text, spans: seq<Resolved>): (e: Edit)
    requires Edits(base, desired, spans)
    ensures e.Texts() && e.base == base && e.desired == desired && e.spans == spans
    ensures e.merged == Merge(WindowsOf(base, desired, spans))
    ensures e.Valid()
  {
    var windows := WindowsOf(base, desired, spans);
    WindowEndsAscend(base, desired, spans);
    MergedGroups(windows);
    MergedInFiles(base, desired, spans, Merge(windows), Firsts(windows));
    Edit(base, desired, spans, windows, Merge(windows), Firsts(windows), SplitLines(base), SplitLines(desired))
  }

  lemma MergedInFile(base: Text, desired: Text, spans: seq<Resolved>, merged: seq<Window>, firsts: seq<nat>, k: nat)
    requires Edits(base, desired, spans) && Grouped(WindowsOf(base, desired, spans), merged, firsts) && k < |merged|
    ensures merged[k].baseStart < merged[k].baseEnd <= |SplitLines(base)|
    ensures merged[k].desiredStart <= merged[k].desiredEnd <= |SplitLines(desired)|
  {
    hide SplitLines, WindowOf;
    var windows := WindowsOf(base, desired, spans);
    WindowEndsAscend(base, desired, spans);
    assert GroupShape(windows, merged, firsts, k);
    var f, l := firsts[k], LastIn(firsts, k, |windows|);
    WindowInFiles(base, desired, spans[f]);
    WindowInFiles(base, desired, spans[l]);
    assert f < l ==> windows[f].baseEnd <= windows[l].baseEnd && windows[f].desiredEnd <= windows[l].desiredEnd;
  }

  lemma MergedInFiles(base: Text, desired: Text, spans: seq<Resolved>, merged: seq<Window>, firsts: seq<nat>)
    requires Edits(base, desired, spans) && Grouped(WindowsOf(base, desired, spans), merged, firsts)
    ensures forall k :: 0 <= k < |merged| ==>
              && merged[k].baseStart < merged[k].baseEnd <= |SplitLines(base)|
              && merged[k].desiredStart <= merged[k].desiredEnd <= |SplitLines(desired)|
  {
    hide SplitLines, WindowOf, Edits, Grouped;
    forall k | 0 <= k < |merged|
      ensures merged[k].baseStart < merged[k].baseEnd <= |SplitLines(base)|
      ensures merged[k].desiredStart <= merged[k].desiredEnd <= |SplitLines(desired)|
    {
      MergedInFile(base, desired, spans, merged, firsts, k);
    }
  }

  // ----- gap k: the lines between merged windows k - 1 and k -----

  function BaseFrom(e: Edit, k: nat): nat
    requires e.Valid() && k <= |e.merged|
  { if k == 0 then 0 else e.merged[k - 1].baseEnd }

  function BaseTo(e: Edit, k: nat): nat
    requires e.Valid() && k <= |e.merged|
  { if k == |e.merged| then |e.baseLines| else e.merged[k].baseStart }

  function DesiredFrom(e: Edit, k: nat): nat
    requires e.Valid() && k <= |e.merged|
  { if k == 0 then 0 else e.merged[k - 1].desiredEnd }

  function DesiredTo(e: Edit, k: nat): nat
    requires e.Valid() && k <= |e.merged|
  { if k == |e.merged| then |e.desiredLines| else e.merged[k].desiredStart }

  predicate GapRange(e: Edit, k: nat)
    requires e.Valid() && k <= |e.merged|
  {
    BaseFrom(e, k) <= BaseTo(e, k) <= |e.baseLines| && DesiredFrom(e, k) <= DesiredTo(e, k) <= |e.desiredLines|
  }

  predicate GapSame(e: Edit, k: nat)
    requires e.Valid() && k <= |e.merged|
  {
    GapRange(e, k)
    && e.baseLines[BaseFrom(e, k)..BaseTo(e, k)] == e.desiredLines[DesiredFrom(e, k)..DesiredTo(e, k)]
  }

  lemma GapRanges(e: Edit, k: nat)
    requires e.Valid() && k <= |e.merged|
    ensures GapRange(e, k)
  {
    if k > 0 {
      assert e.InFiles(k - 1) && GroupShape(e.windows, e.merged, e.firsts, k - 1);
      if k < |e.merged| { assert GroupShape(e.windows, e.merged, e.firsts, k); }
    }
    if k < |e.merged| { assert e.InFiles(k); }
  }

  lemma {:induction false} MergedInOrder(e: Edit, k: nat)
    requires e.Valid() && k <= |e.merged|
    ensures InOrder(e.merged[k..], |e.baseLines|, |e.desiredLines|, BaseFrom(e, k), DesiredFrom(e, k))
    decreases |e.merged| - k
  {
    GapRanges(e, k);
    if k < |e.merged| {
      assert e.InFiles(k);
      MergedInOrder(e, k + 1);
      assert e.merged[k..][1..] == e.merged[k + 1..];
    }
  }

  ghost predicate SameFrom(e: Edit, k: nat)
    requires e.Valid() && k <= |e.merged|
  {
    forall j :: k <= j <= |e.merged| ==> GapSame(e, j)
  }

  lemma {:induction false} GapsMatchIffEachSame(e: Edit, k: nat)
    requires e.Valid() && k <= |e.merged|
    requires InOrder(e.merged[k..], |e.baseLines|, |e.desiredLines|, BaseFrom(e, k), DesiredFrom(e, k))
    ensures GapsMatch(e.baseLines, e.desiredLines, e.merged[k..], BaseFrom(e, k), DesiredFrom(e, k))
            <==> SameFrom(e, k)
    decreases |e.merged| - k
  {
    GapRanges(e, k);
    if k < |e.merged| {
      assert e.merged[k..][1..] == e.merged[k + 1..];
      GapsMatchIffEachSame(e, k + 1);
      assert SameFrom(e, k) <==> GapSame(e, k) && SameFrom(e, k + 1);
    } else {
      assert e.merged[k..] == [];
      assert SameFrom(e, k) <==> GapSame(e, k);
      assert e.baseLines[BaseFrom(e, k)..] == e.baseLines[BaseFrom(e, k)..|e.baseLines|];
      assert e.desiredLines[DesiredFrom(e, k)..] == e.desiredLines[DesiredFrom(e, k)..|e.desiredLines|];
    }
  }

  // ----- each kind of gap -----

  /** Every line from lo up to hi equals its successor. */
  predicate Repeating(lines: seq<Text>, lo: nat, hi: nat) {
    hi < |lines| && forall i :: lo <= i < hi ==> lines[i] == lines[i + 1]
  }

  lemma ShiftedSlices(x: seq<Text>, lines: seq<Text>, lo: int, hi: int, tail: int, head: int)
    requires 0 <= lo <= hi <= |lines| && x == lines[lo..hi]
    requires -1 <= tail <= 1 && -1 <= head <= 0 && 0 <= lo + tail <= hi + head < |lines|
    ensures x == lines[lo + tail..hi + head]
            <==> tail == head && (tail == 0 || Repeating(lines, lo + tail, hi + head))
  {
    var y := lines[lo + tail..hi + head];
    assert |x| == hi - lo && |y| == hi - lo + head - tail;
    if tail == head == -1 {
      if x == y {
        forall i | lo - 1 <= i < hi - 1 ensures lines[i] == lines[i + 1] {
          assert y[i - (lo - 1)] == x[i - (lo - 1)];
        }
      }
      if Repeating(lines, lo - 1, hi - 1) {
        forall i | 0 <= i < |x| ensures x[i] == y[i] {
          assert lines[lo - 1 + i] == lines[lo - 1 + i + 1];
        }
      }
    }
  }

  lemma NewlinesPast(t: Text, p: nat, q: nat)
    requires p <= |t| && q <= |t| && Newlines(t[..p]) < Newlines(t[..q])
    ensures p < q
  {
    if q <= p { NewlinesMonotone(t, q, p); }
  }

  /** Between two windows that do not touch, neither is clamped. */
  lemma UnclampedNumbers(base: Text, desired: Text, spans: seq<Resolved>, f: nat)
    requires Edits(base, desired, spans) && 0 < f < |spans|
    requires SpanReplaced(base, desired, spans[f - 1]) && SpanReplaced(base, desired, spans[f])
    requires !Touches(WindowOf(base, desired, spans[f - 1]), WindowOf(base, desired, spans[f]))
    ensures GapCopied(base, desired, spans, f)
    ensures var s, n, d := spans[f - 1], spans[f], Drift(base, desired, spans, f);
            var left, right := WindowOf(base, desired, s), WindowOf(base, desired, n);
            && left.baseEnd == LineOf(base, s.end - 1) + 4
            && right.baseStart == LineOf(base, n.start) - 3
            && left.desiredEnd == left.baseEnd + d + TailShift(base, s)
            && right.desiredStart == right.baseStart + d + HeadShift(desired, n)
            && right.desiredStart < |SplitLines(desired)|
  {
    hide SplitLines, Newlines, Edits, GapCopied, SpanReplaced;
    var s, n := spans[f - 1], spans[f];
    WindowInFiles(base, desired, n);
    FirstLineShift(base, desired, spans, f);
    LastLineShift(base, desired, spans, f - 1);
    GapOf(base, desired, spans, f);
  }

  /** The whole lines between two spans whose windows do not touch. */
  lemma UnclampedLines(base: Text, desired: Text, spans: seq<Resolved>, f: nat, lo: nat, hi: nat)
    requires Edits(base, desired, spans) && 0 < f < |spans| && GapCopied(base, desired, spans, f)
    requires SpanReplaced(base, desired, spans[f - 1]) && SpanReplaced(base, desired, spans[f])
    requires LineOf(base, spans[f - 1].end - 1) + 1 < lo < hi < LineOf(base, spans[f].start)
    ensures var d := Drift(base, desired, spans, f);
            && hi <= |SplitLines(base)| && 0 <= lo + d <= hi + d <= |SplitLines(desired)|
            && SplitLines(base)[lo..hi] == SplitLines(desired)[lo + d..hi + d]
  {
    var s, n := spans[f - 1], spans[f];
    LastLineShift(base, desired, spans, f - 1);
    FirstLineShift(base, desired, spans, f);
    NewlinesMonotone(base, n.start, |base|);
    assert base[..|base|] == base;
    var p := BoundaryOf(base, lo);
    var q := BoundaryOf(base, hi);
    NewlinesPast(base, s.end, p);
    NewlinesPast(base, p, q);
    NewlinesPast(base, q, n.start);
    GapLines(base, desired, spans, f, p, q);
  }

  lemma MiddleSpans(e: Edit, k: nat)
    requires e.Valid() && 0 < k < |e.merged|
    ensures 0 < e.firsts[k] < |e.spans|
    ensures var left, right := e.windows[e.firsts[k] - 1], e.windows[e.firsts[k]];
            && BaseFrom(e, k) == left.baseEnd && DesiredFrom(e, k) == left.desiredEnd
            && BaseTo(e, k) == right.baseStart && DesiredTo(e, k) == right.desiredStart
            && !Touches(left, right)
  {
    hide SplitLines, WindowOf;
    assert GroupShape(e.windows, e.merged, e.firsts, k - 1);
    assert GroupShape(e.windows, e.merged, e.firsts, k);
  }

  lemma MiddleGap(e: Edit, k: nat)
    requires e.Valid() && 0 < k < |e.merged|
    ensures 0 < e.firsts[k] < |e.spans| && SpanReplaced(e.base, e.desired, e.spans[e.firsts[k] - 1])
    ensures var t := TailShift(e.base, e.spans[e.firsts[k] - 1]);
            GapSame(e, k) <==>
            t == HeadShift(e.desired, e.spans[e.firsts[k]])
            && (t == 0 || Repeating(e.desiredLines, DesiredFrom(e, k), DesiredTo(e, k)))
  {
    hide SplitLines, WindowOf, Repeating;
    MiddleSpans(e, k);
    GapRanges(e, k);
    var f := e.firsts[k];
    assert SpanReplaced(e.base, e.desired, e.spans[f - 1]) && SpanReplaced(e.base, e.desired, e.spans[f]);
    UnclampedNumbers(e.base, e.desired, e.spans, f);
    UnclampedLines(e.base, e.desired, e.spans, f, BaseFrom(e, k), BaseTo(e, k));
    var d := Drift(e.base, e.desired, e.spans, f);
    ShiftedSlices(e.baseLines[BaseFrom(e, k)..BaseTo(e, k)], e.desiredLines, BaseFrom(e, k) + d, BaseTo(e, k) + d,
                  TailShift(e.base, e.spans[f - 1]), HeadShift(e.desired, e.spans[f]));
  }

  /** Before the first window nothing has drifted, so only the clamp at the end of the text can shift it. */
  lemma FirstGap(e: Edit)
    requires e.Valid() && e.spans != [] && e.merged != []
    ensures GapSame(e, 0) <==> HeadAligned(e)
  {
    assert GroupShape(e.windows, e.merged, e.firsts, 0);
    GapRanges(e, 0);
    FirstLineShift(e.base, e.desired, e.spans, 0);
    assert Drift(e.base, e.desired, e.spans, 0) == 0;
    GapOf(e.base, e.desired, e.spans, 0);
    if BaseTo(e, 0) > 0 {
      var n := e.spans[0];
      NewlinesMonotone(e.base, n.start, |e.base|);
      assert e.base[..|e.base|] == e.base;
      var q := BoundaryOf(e.base, BaseTo(e, 0));
      NewlinesPast(e.base, q, n.start);
      GapLines(e.base, e.desired, e.spans, 0, 0, q);
      assert e.base[..0] == [];
    }
  }

  lemma LastLineOfText(t: Text)
    requires t != []
    ensures LineOf(t, |t| - 1) == |SplitLines(t)| - 1
  {
    LineCount(t);
    NewlinesStep(t, |t| - 1);
    assert t[..|t|] == t;
  }

  /** A last span that reaches the end of the base reaches the end of both files. */
  lemma LastSpanAtEnd(base: Text, desired: Text, spans: seq<Resolved>)
    requires Edits(base, desired, spans) && spans != [] && spans[|spans| - 1].end == |base|
    requires SpanReplaced(base, desired, spans[|spans| - 1])
    ensures var w := WindowOf(base, desired, spans[|spans| - 1]);
            w.baseEnd == |SplitLines(base)| && w.desiredEnd == |SplitLines(desired)|
  {
    hide SplitLines, Edits;
    GapOf(base, desired, spans, |spans|);
    LastLineOfText(base);
    if spans[|spans| - 1].replacement != [] { LastLineOfText(desired); }
  }

  /** Text after the last span: the files' line counts differ by the drift. */
  lemma LineCountsDrift(base: Text, desired: Text, spans: seq<Resolved>)
    requires Edits(base, desired, spans) && spans != [] && spans[|spans| - 1].end < |base|
    ensures GapCopied(base, desired, spans, |spans|)
    ensures |SplitLines(desired)| == |SplitLines(base)| + Drift(base, desired, spans, |spans|)
  {
    var n := |spans|;
    GapOf(base, desired, spans, n);
    GapNewlines(base, desired, spans, n, |base|);
    assert base[..|base|] == base && desired[..|desired|] == desired;
    LineCount(base);
    LineCount(desired);
    var lo, dlo := GapStart(spans, n), DesiredGapStart(spans, n);
    assert base[lo..|base|][|base| - 1 - lo] == desired[dlo..|desired|][|base| - 1 - lo];
  }

  /** The whole lines from `lo` on, after the last span. */
  lemma TrailingLines(base: Text, desired: Text, spans: seq<Resolved>, lo: nat)
    requires Edits(base, desired, spans) && spans != [] && spans[|spans| - 1].end < |base|
    requires SpanReplaced(base, desired, spans[|spans| - 1]) && GapCopied(base, desired, spans, |spans|)
    requires LineOf(base, spans[|spans| - 1].end - 1) + 1 < lo < |SplitLines(base)|
    ensures var d := Drift(base, desired, spans, |spans|);
            && 0 <= lo + d <= |SplitLines(desired)| && SplitLines(base)[lo..] == SplitLines(desired)[lo + d..]
  {
    var s := spans[|spans| - 1];
    LastLineShift(base, desired, spans, |spans| - 1);
    LineCount(base);
    var p := BoundaryOf(base, lo);
    NewlinesPast(base, s.end, p);
    LastGapLines(base, desired, spans, p);
  }

  lemma TextFollows(base: Text, desired: Text, spans: seq<Resolved>)
    requires Edits(base, desired, spans) && spans != [] && spans[|spans| - 1].end < |base|
    ensures GapCopied(base, desired, spans, |spans|) && spans[|spans| - 1].desiredEnd < |desired|
  {
    hide SplitLines, Newlines;
    GapOf(base, desired, spans, |spans|);
  }

  lemma LastGapNumbers(base: Text, desired: Text, spans: seq<Resolved>)
    requires Edits(base, desired, spans) && spans != [] && spans[|spans| - 1].end < |base|
    requires SpanReplaced(base, desired, spans[|spans| - 1]) && GapCopied(base, desired, spans, |spans|)
    ensures var s, d := spans[|spans| - 1], Drift(base, desired, spans, |spans|);
            var w, t := WindowOf(base, desired, s), TailShift(base, s);
            && w.baseEnd == Min(|SplitLines(base)|, LineOf(base, s.end - 1) + 4)
            && |SplitLines(desired)| == |SplitLines(base)| + d
            && w.desiredEnd == Min(|SplitLines(desired)|, LineOf(base, s.end - 1) + 4 + d + t)
  {
    hide SplitLines, Newlines, Edits, Drift, TailShift, LineOf;
    TextFollows(base, desired, spans);
    LineCountsDrift(base, desired, spans);
    LastLineShift(base, desired, spans, |spans| - 1);
  }

  lemma LastGapLinesSame(base: Text, desired: Text, spans: seq<Resolved>)
    requires Edits(base, desired, spans) && spans != [] && spans[|spans| - 1].end < |base|
    requires SpanReplaced(base, desired, spans[|spans| - 1])
    requires WindowOf(base, desired, spans[|spans| - 1]).desiredEnd <= |SplitLines(desired)|
    ensures var w := WindowOf(base, desired, spans[|spans| - 1]);
            SplitLines(base)[w.baseEnd..] == SplitLines(desired)[w.desiredEnd..]
            <==> (w.baseEnd == |SplitLines(base)| && w.desiredEnd == |SplitLines(desired)|)
                 || TailShift(base, spans[|spans| - 1]) == 0
  {
    LineCountsDrift(base, desired, spans);
    LastGapNumbers(base, desired, spans);
    var w := WindowOf(base, desired, spans[|spans| - 1]);
    var x, y := SplitLines(base)[w.baseEnd..], SplitLines(desired)[w.desiredEnd..];
    assert |x| == |SplitLines(base)| - w.baseEnd && |y| == |SplitLines(desired)| - w.desiredEnd;
    if w.baseEnd < |SplitLines(base)| {
      TrailingLines(base, desired, spans, w.baseEnd);
    }
  }

  lemma LastGap(e: Edit)
    requires e.Valid() && e.spans != [] && e.merged != []
    ensures GapSame(e, |e.merged|) <==> TailAligned(e)
  {
    hide SplitLines, WindowOf;
    var K, n := |e.merged|, |e.spans|;
    assert GroupShape(e.windows, e.merged, e.firsts, K - 1);
    assert SpanReplaced(e.base, e.desired, e.spans[n - 1]);
    GapRanges(e, K);
    var w := WindowOf(e.base, e.desired, e.spans[n - 1]);
    assert BaseFrom(e, K) == w.baseEnd && DesiredFrom(e, K) == w.desiredEnd;
    assert e.baseLines[w.baseEnd..|e.baseLines|] == e.baseLines[w.baseEnd..];
    assert e.desiredLines[w.desiredEnd..|e.desiredLines|] == e.desiredLines[w.desiredEnd..];
    if e.spans[n - 1].end == |e.base| {
      LastSpanAtEnd(e.base, e.desired, e.spans);
    } else {
      LastGapLinesSame(e.base, e.desired, e.spans);
    }
  }

  // ----- the theorem -----

  /** A first span that deletes the rest of the file does so near its start. */
  predicate HeadAligned(e: Edit)
    requires e.Texts() && e.spans != []
  {
    assert SpanReplaced(e.base, e.desired, e.spans[0]);
    CutAtEnd(e.desired, e.spans[0]) ==> LineOf(e.base, e.spans[0].start) <= 3
  }

  /** Between merged windows k - 1 and k the line numbers of both files stay in step: the span
      before and the span after shift the windows by the same amount, and by nothing unless every
      line in between repeats. */
  predicate InStep(e: Edit, k: nat)
    requires e.Texts() && |e.merged| == |e.firsts| && 0 < k < |e.merged| && 0 < e.firsts[k] < |e.spans|
  {
    assert SpanReplaced(e.base, e.desired, e.spans[e.firsts[k] - 1]);
    var t := TailShift(e.base, e.spans[e.firsts[k] - 1]);
    && t == HeadShift(e.desired, e.spans[e.firsts[k]])
    && (t == 0 || Repeating(e.desiredLines, e.merged[k - 1].desiredEnd, e.merged[k].desiredStart))
  }

  ghost predicate MiddleAligned(e: Edit)
    requires e.Texts() && |e.merged| == |e.firsts|
  {
    forall k :: 0 < k < |e.merged| ==> 0 < e.firsts[k] < |e.spans| && InStep(e, k)
  }

  /** The last window reaches the end of both files, or its last span's texts agree on ending in a newline. */
  predicate TailAligned(e: Edit)
    requires e.Texts() && e.spans != [] && e.merged != []
  {
    assert SpanReplaced(e.base, e.desired, e.spans[|e.spans| - 1]);
    var last := e.merged[|e.merged| - 1];
    (last.baseEnd == |e.baseLines| && last.desiredEnd == |e.desiredLines|)
    || TailShift(e.base, e.spans[|e.spans| - 1]) == 0
  }

  /** The condition on the edit under which its patch is exact. */
  ghost predicate Aligned(e: Edit)
    requires e.Valid()
  {
    e.spans == [] || (HeadAligned(e) && MiddleAligned(e) && TailAligned(e))
  }

  lemma MiddleAlignedIff(e: Edit)
    requires e.Valid()
    ensures MiddleAligned(e) <==> forall k :: 0 < k < |e.merged| ==> GapSame(e, k)
  {
    forall k | 0 < k < |e.merged|
      ensures 0 < e.firsts[k] < |e.spans| && (GapSame(e, k) <==> InStep(e, k))
    {
      MiddleGap(e, k);
    }
  }

  lemma AlignedIffGapsSame(e: Edit)
    requires e.Valid() && e.spans != []
    ensures Aligned(e) <==> SameFrom(e, 0)
  {
    FirstGap(e);
    LastGap(e);
    MiddleAlignedIff(e);
    assert SameFrom(e, 0) ==> GapSame(e, 0) && GapSame(e, |e.merged|);
  }

  /** A merged window is empty on the desired side exactly when nothing is left of the file. */
  lemma EmptyWindowIff(e: Edit, k: nat)
    requires e.Valid() && k < |e.merged|
    ensures e.merged[k].desiredStart == e.merged[k].desiredEnd <==> e.desired == []
  {
    hide WindowOf;
    assert e.InFiles(k);
    WindowEndsAscend(e.base, e.desired, e.spans);
    assert GroupShape(e.windows, e.merged, e.firsts, k);
    var f, l := e.firsts[k], LastIn(e.firsts, k, |e.windows|);
    WindowInFiles(e.base, e.desired, e.spans[f]);
    WindowInFiles(e.base, e.desired, e.spans[l]);
    assert f < l ==> e.windows[f].desiredEnd <= e.windows[l].desiredEnd;
  }

  /** The hunks, applied to the base lines, give exactly the desired lines if and only if the edit is aligned. */
  lemma RecoversIffAligned(e: Edit, hunks: seq<Hunk>)
    requires e.Valid() && HunksFor(e.baseLines, e.desiredLines, e.merged, hunks)
    ensures Apply(e.baseLines, hunks, 0, 0) == Some(e.desiredLines) <==> Aligned(e)
  {
    MergedInOrder(e, 0);
    assert e.merged[0..] == e.merged && e.desiredLines[0..] == e.desiredLines;
    ApplyRecoversIffGapsMatch(e.baseLines, e.desiredLines, e.merged, hunks, 0, 0);
    GapsMatchIffEachSame(e, 0);
    if e.spans == [] {
      GapOf(e.base, e.desired, e.spans, 0);
      assert e.base[0..|e.base|] == e.base && e.desired[0..|e.desired|] == e.desired;
    } else {
      AlignedIffGapsSame(e);
    }
  }

  /** Old and new text are non-empty and agree on ending in a newline. */
  predicate AgreeOnNewline(base: Text, s: Resolved)
    requires s.start < s.end <= |base|
  {
    s.replacement != [] && EndsInNewline(base[s.start..s.end]) == EndsInNewline(s.replacement)
  }

  ghost predicate AllAgree(e: Edit)
    requires e.Texts()
  {
    forall i :: 0 <= i < |e.spans| ==> SpanReplaced(e.base, e.desired, e.spans[i]) && AgreeOnNewline(e.base, e.spans[i])
  }

  lemma AgreementAligns(e: Edit)
    requires e.Valid() && AllAgree(e)
    ensures Aligned(e)
  {
    hide SplitLines, WindowOf, Newlines;
    if e.spans != [] {
      forall k | 0 < k < |e.merged| ensures 0 < e.firsts[k] < |e.spans| && InStep(e, k) {
        MiddleSpans(e, k);
        assert AgreeOnNewline(e.base, e.spans[e.firsts[k] - 1]) && AgreeOnNewline(e.base, e.spans[e.firsts[k]]);
      }
      assert AgreeOnNewline(e.base, e.spans[0]) && AgreeOnNewline(e.base, e.spans[|e.spans| - 1]);
    }
  }

  /** A condition on each replacement alone that makes every patch exact. */
  lemma AgreementSuffices(e: Edit, hunks: seq<Hunk>)
    requires e.Valid() && HunksFor(e.baseLines, e.desiredLines, e.merged, hunks) && AllAgree(e)
    ensures Apply(e.baseLines, hunks, 0, 0) == Some(e.desiredLines)
  {
    RecoversIffAligned(e, hunks);
    AgreementAligns(e);
  }
}
