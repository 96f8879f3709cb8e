/** Line numbers on the two sides of an edit: how they drift, and what that does to the windows. */
module PatchAlignment {
  import opened Utf16
  import opened ReviewAnchors
  import opened Lines
  import opened PatchWindows

  lemma GapOf(base: Text, desired: Text, spans: seq<Resolved>, i: nat)
    requires Edits(base, desired, spans) && i <= |spans|
    ensures GapCopied(base, desired, spans, i)
    ensures i < |spans| ==> SpanReplaced(base, desired, spans[i])
  {
  }

  /** How many more newlines the desired text has than the base before gap i. */
  function Drift(base: Text, desired: Text, spans: seq<Resolved>, i: nat): int
    requires i <= |spans| && GapCopied(base, desired, spans, i)
  {
    Newlines(desired[..DesiredGapStart(spans, i)]) - Newlines(base[..GapStart(spans, i)])
  }

  /** Where an offset of gap i lies in the desired text. */
  function Moved(spans: seq<Resolved>, i: nat, o: nat): int
    requires i <= |spans|
  {
    o - GapStart(spans, i) + DesiredGapStart(spans, i)
  }

  predicate InGap(base: Text, spans: seq<Resolved>, i: nat, o: nat)
    requires i <= |spans|
  {
    GapStart(spans, i) <= o <= GapEnd(spans, i, |base|)
  }

  lemma SameSlice(a: Text, b: Text, i: nat, j: nat, k: nat, l: nat, x: nat, y: nat)
    requires i <= j <= |a| && k <= l <= |b| && a[i..j] == b[k..l] && x <= y <= j - i
    ensures a[i + x..i + y] == b[k + x..k + y]
  {
    var u, v := a[i + x..i + y], b[k + x..k + y];
    forall n | 0 <= n < |u| ensures u[n] == v[n] {
      assert a[i..j][x + n] == b[k..l][x + n];
    }
  }

  lemma GapNewlines(base: Text, desired: Text, spans: seq<Resolved>, i: nat, o: nat)
    requires i <= |spans| && GapCopied(base, desired, spans, i) && InGap(base, spans, i, o)
    ensures 0 <= Moved(spans, i, o) <= |desired|
    ensures Newlines(desired[..Moved(spans, i, o)]) == Newlines(base[..o]) + Drift(base, desired, spans, i)
  {
    var lo, dlo := GapStart(spans, i), DesiredGapStart(spans, i);
    SameSlice(base, desired, lo, GapEnd(spans, i, |base|), dlo, DesiredGapEnd(spans, i, |desired|), 0, o - lo);
    NewlinesUpTo(base, lo, o);
    NewlinesUpTo(desired, dlo, dlo + (o - lo));
  }

  /** A line start strictly inside a gap, or at the very start of both texts. */
  predicate LineStartIn(base: Text, spans: seq<Resolved>, i: nat, p: nat)
    requires i <= |spans|
  {
    InGap(base, spans, i, p) && Boundary(base, p) && (p > GapStart(spans, i) || (i == 0 && p == 0))
  }

  lemma BoundaryMoves(base: Text, desired: Text, spans: seq<Resolved>, i: nat, p: nat)
    requires i <= |spans| && GapCopied(base, desired, spans, i) && LineStartIn(base, spans, i, p)
    ensures Boundary(desired, Moved(spans, i, p))
  {
    var lo, dlo := GapStart(spans, i), DesiredGapStart(spans, i);
    if p > lo {
      assert base[lo..GapEnd(spans, i, |base|)][p - 1 - lo] == desired[dlo..DesiredGapEnd(spans, i, |desired|)][p - 1 - lo];
    }
  }

  lemma LinesFrom(t: Text, p: nat)
    requires Boundary(t, p)
    ensures Newlines(t[..p]) <= |SplitLines(t)| && SplitLines(t)[Newlines(t[..p])..] == SplitLines(t[p..])
  {
    SplitAtBoundary(t, p);
  }

  lemma MiddlePart<T>(all: seq<T>, front: seq<T>, mid: seq<T>, back: seq<T>)
    requires all == front + (mid + back)
    ensures all[|front|..|front| + |mid|] == mid
  {
  }

  lemma LinesBetween(t: Text, p: nat, q: nat)
    requires Boundary(t, p) && Boundary(t, q) && p <= q
    ensures Newlines(t[..p]) <= Newlines(t[..q]) <= |SplitLines(t)|
    ensures SplitLines(t)[Newlines(t[..p])..Newlines(t[..q])] == SplitLines(t[p..q])
  {
    var mid, back := SplitLines(t[p..q]), SplitLines(t[q..]);
    assert SplitLines(t[p..]) == mid + back && |mid| == Newlines(t[p..q]) by {
      SplitAtBoundary(t[p..], q - p);
      Cut(t, p, q);
    }
    assert Newlines(t[..q]) == Newlines(t[..p]) + |mid| by { NewlinesUpTo(t, p, q); }
    SplitAtBoundary(t, p);
    MiddlePart(SplitLines(t), SplitLines(t[..p]), mid, back);
  }

  lemma MovedSlice(base: Text, desired: Text, spans: seq<Resolved>, i: nat, p: nat, q: nat)
    requires i <= |spans| && GapCopied(base, desired, spans, i)
    requires InGap(base, spans, i, p) && InGap(base, spans, i, q) && p <= q
    ensures 0 <= Moved(spans, i, p) <= Moved(spans, i, q) <= |desired|
    ensures base[p..q] == desired[Moved(spans, i, p)..Moved(spans, i, q)]
  {
    var lo, dlo := GapStart(spans, i), DesiredGapStart(spans, i);
    SameSlice(base, desired, lo, GapEnd(spans, i, |base|), dlo, DesiredGapEnd(spans, i, |desired|), p - lo, q - lo);
  }

  /** Whole lines of a gap are the same lines on both sides, numbered `Drift` apart. */
  lemma GapLines(base: Text, desired: Text, spans: seq<Resolved>, i: nat, p: nat, q: nat)
    requires i <= |spans| && GapCopied(base, desired, spans, i)
    requires LineStartIn(base, spans, i, p) && LineStartIn(base, spans, i, q) && p <= q
    ensures var d, n, m := Drift(base, desired, spans, i), Newlines(base[..p]), Newlines(base[..q]);
            && n <= m <= |SplitLines(base)| && 0 <= n + d <= m + d <= |SplitLines(desired)|
            && SplitLines(base)[n..m] == SplitLines(desired)[n + d..m + d]
  {
    var p', q' := Moved(spans, i, p), Moved(spans, i, q);
    assert Newlines(desired[..p']) == Newlines(base[..p]) + Drift(base, desired, spans, i) by {
      GapNewlines(base, desired, spans, i, p);
    }
    assert Newlines(desired[..q']) == Newlines(base[..q]) + Drift(base, desired, spans, i) by {
      GapNewlines(base, desired, spans, i, q);
    }
    assert SplitLines(base[p..q]) == SplitLines(desired[p'..q']) by { MovedSlice(base, desired, spans, i, p, q); }
    BoundaryMoves(base, desired, spans, i, p);
    BoundaryMoves(base, desired, spans, i, q);
    LinesBetween(base, p, q);
    LinesBetween(desired, p', q');
  }

  /** The lines from a line start in the last gap to the end of the file. */
  lemma LastGapLines(base: Text, desired: Text, spans: seq<Resolved>, p: nat)
    requires GapCopied(base, desired, spans, |spans|) && LineStartIn(base, spans, |spans|, p)
    ensures var d, n := Drift(base, desired, spans, |spans|), Newlines(base[..p]);
            && n <= |SplitLines(base)| && 0 <= n + d <= |SplitLines(desired)|
            && SplitLines(base)[n..] == SplitLines(desired)[n + d..]
  {
    var i := |spans|;
    var p' := Moved(spans, i, p);
    GapNewlines(base, desired, spans, i, p);
    assert SplitLines(base[p..]) == SplitLines(desired[p'..]) by {
      MovedSlice(base, desired, spans, i, p, |base|);
      assert base[p..|base|] == base[p..] && desired[p'..|desired|] == desired[p'..];
    }
    BoundaryMoves(base, desired, spans, i, p);
    LinesFrom(base, p);
    LinesFrom(desired, p');
  }

  // ----- lines of a span's ends -----

  function EndsNewline(t: Text): int {
    if EndsInNewline(t) then 1 else 0
  }

  /** How far the window's desired end is off: whether old and new text agree on a final newline. */
  function TailShift(base: Text, s: Resolved): int
    requires s.start < s.end <= |base|
  {
    EndsNewline(base[s.start..s.end]) - EndsNewline(s.replacement)
  }

  /** The span deletes the rest of the file and leaves text that ends in a newline. */
  predicate CutAtEnd(desired: Text, s: Resolved) {
    s.desiredStart == |desired| && EndsInNewline(desired)
  }

  /** How far the window's desired start is off: the search clamps the end of the text to its last line. */
  function HeadShift(desired: Text, s: Resolved): int {
    if CutAtEnd(desired, s) then -1 else 0
  }

  lemma LineOfEnd(t: Text)
    ensures LineOf(t, |t|) == Newlines(t) - EndsNewline(t)
  {
    LineCount(t);
  }

  lemma LineOfMonotone(t: Text, i: nat, j: nat)
    requires i <= j <= |t|
    ensures LineOf(t, i) <= LineOf(t, j)
  {
    NewlinesMonotone(t, i, j);
    if i < |t| { NewlinesBefore(t, i); }
  }

  lemma FirstLineShift(base: Text, desired: Text, spans: seq<Resolved>, i: nat)
    requires Edits(base, desired, spans) && i < |spans|
    ensures GapCopied(base, desired, spans, i)
    ensures LineOf(base, spans[i].start) == Newlines(base[..spans[i].start])
    ensures LineOf(desired, spans[i].desiredStart)
            == LineOf(base, spans[i].start) + Drift(base, desired, spans, i) + HeadShift(desired, spans[i])
  {
    GapOf(base, desired, spans, i);
    GapNewlines(base, desired, spans, i, spans[i].start);
    if spans[i].desiredStart == |desired| {
      LineOfEnd(desired);
      assert desired[..|desired|] == desired;
    }
  }

  lemma LastLineShift(base: Text, desired: Text, spans: seq<Resolved>, i: nat)
    requires Edits(base, desired, spans) && i < |spans|
    ensures GapCopied(base, desired, spans, i + 1) && SpanReplaced(base, desired, spans[i])
    ensures LineOf(base, spans[i].end - 1) == Newlines(base[..spans[i].end]) - EndsNewline(base[spans[i].start..spans[i].end])
    ensures spans[i].desiredEnd < |desired| || spans[i].replacement != [] ==>
              LineOf(desired, Max(spans[i].desiredStart, spans[i].desiredEnd - 1))
              == LineOf(base, spans[i].end - 1) + Drift(base, desired, spans, i + 1) + TailShift(base, spans[i])
  {
    GapOf(base, desired, spans, i);
    GapOf(base, desired, spans, i + 1);
    var s := spans[i];
    NewlinesStep(base, s.end - 1);
    assert base[s.start..s.end][s.end - s.start - 1] == base[s.end - 1];
    if s.replacement != [] {
      NewlinesStep(desired, s.desiredEnd - 1);
      assert desired[s.desiredStart..s.desiredEnd][s.desiredEnd - s.desiredStart - 1] == desired[s.desiredEnd - 1];
    }
  }

  lemma OffsetsAscend(base: Text, desired: Text, spans: seq<Resolved>, i: nat, j: nat)
    requires Edits(base, desired, spans) && i < j < |spans|
    ensures spans[i].end <= spans[j].start && spans[i].desiredEnd <= spans[j].desiredStart
    ensures SpanReplaced(base, desired, spans[i]) && SpanReplaced(base, desired, spans[j])
    decreases j - i
  {
    GapOf(base, desired, spans, i);
    GapOf(base, desired, spans, j);
    if i + 1 < j {
      OffsetsAscend(base, desired, spans, i, j - 1);
    }
  }

  lemma WindowEndsAscend(base: Text, desired: Text, spans: seq<Resolved>)
    requires Edits(base, desired, spans)
    ensures EndsAscend(WindowsOf(base, desired, spans))
  {
    var windows := WindowsOf(base, desired, spans);
    forall i, j | 0 <= i < j < |windows|
      ensures windows[i].baseEnd <= windows[j].baseEnd && windows[i].desiredEnd <= windows[j].desiredEnd
    {
      OffsetsAscend(base, desired, spans, i, j);
      LineOfMonotone(base, spans[i].end - 1, spans[j].end - 1);
      LineOfMonotone(desired, Max(spans[i].desiredStart, spans[i].desiredEnd - 1),
                     Max(spans[j].desiredStart, spans[j].desiredEnd - 1));
    }
  }

  /** Windows lie within both files, and no window starts at the end of the base. */
  lemma WindowInFiles(base: Text, desired: Text, s: Resolved)
    requires SpanReplaced(base, desired, s)
    ensures var w := WindowOf(base, desired, s);
            && w.baseStart < w.baseEnd <= |SplitLines(base)|
            && w.desiredStart <= w.desiredEnd <= |SplitLines(desired)|
            && (w.desiredStart > 0 ==> w.desiredStart < |SplitLines(desired)|)
            && (w.desiredStart == w.desiredEnd <==> desired == [])
  {
    NewlinesBefore(base, s.start);
    LineOfMonotone(base, s.start, s.end - 1);
    LineOfMonotone(desired, s.desiredStart, Max(s.desiredStart, s.desiredEnd - 1));
    if s.desiredStart < |desired| { NewlinesBefore(desired, s.desiredStart); }
  }
}
