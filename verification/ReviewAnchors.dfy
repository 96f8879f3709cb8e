/** The reviewer's own anchor resolution (git-review.ts), and that it agrees with the editor's. */
module ReviewAnchors {
  import opened Utf16
  import opened Results
  import opened Anchors

  datatype ReviewError = BaseStale | AnchorOverlap
  datatype Resolved = Resolved(start: nat, end: nat, replacement: Text, desiredStart: int, desiredEnd: int)

  function Growth(s: Span): int {
    |s.replacement| - (s.end - s.start)
  }

  function Shifted(s: Span, delta: int): Resolved {
    Resolved(s.start, s.end, s.replacement, s.start + delta, s.start + delta + |s.replacement|)
  }

  /** Every span with its place in the desired text, `delta` being the growth of the spans before it. */
  function ShiftAll(ordered: seq<Span>, delta: int): (resolved: seq<Resolved>)
    ensures |resolved| == |ordered|
  {
    if ordered == [] then []
    else [Shifted(ordered[0], delta)] + ShiftAll(ordered[1..], delta + Growth(ordered[0]))
  }

  ghost function ResolvedOf(base: Text, replacements: seq<Replacement>): Result<seq<Resolved>, ReviewError> {
    if !AllUnique(base, replacements) then Err(BaseStale)
    else
      var ordered := SortByStart(Spans(base, replacements));
      if !NoNeighbourOverlap(ordered) then Err(AnchorOverlap) else Ok(ShiftAll(ordered, 0))
  }

  /** The delta loop of resolveAnchors. */
  method PlaceAll(ordered: seq<Span>) returns (resolved: seq<Resolved>)
    ensures resolved == ShiftAll(ordered, 0)
  {
    var delta := 0;
    resolved := [];
    for i := 0 to |ordered|
      invariant resolved + ShiftAll(ordered[i..], delta) == ShiftAll(ordered, 0)
    {
      assert ordered[i..][1..] == ordered[i + 1..];
      resolved := resolved + [Shifted(ordered[i], delta)];
      delta := delta + Growth(ordered[i]);
    }
  }

  method ResolveAnchors(base: Text, replacements: seq<Replacement>)
    returns (r: Result<seq<Resolved>, ReviewError>)
    ensures r == ResolvedOf(base, replacements)
  {
    var spans := LocateSpans(base, replacements);
    if spans.None? {
      return Err(BaseStale);
    }
    var ordered := SortByStart(spans.value);
    var overlap := FindOverlap(ordered);
    if overlap {
      return Err(AnchorOverlap);
    }
    var resolved := PlaceAll(ordered);
    return Ok(resolved);
  }

  method ApplyAnchors(base: Text, replacements: seq<Replacement>) returns (r: Result<Text, ReviewError>)
    ensures r == AppliedText(base, replacements)
  {
    var resolved := ResolveAnchors(base, replacements);
    if resolved.Err? {
      return Err(resolved.error);
    }
    ghost var ordered := SortByStart(Spans(base, replacements));
    OrderedSpans(base, replacements);
    var spans := resolved.value;
    ShiftKeeps(ordered, 0);
    var desired := base;
    var k := |spans|;
    while k > 0
      invariant 0 <= k <= |spans|
      invariant Ordered(ordered[k..], 0, |base|)
      invariant desired == Substitute(base, ordered[k..], 0)
    {
      k := k - 1;
      SpliceStep(base, ordered, k);
      desired := desired[..spans[k].start] + spans[k].replacement + desired[spans[k].end..];
    }
    assert ordered[0..] == ordered;
    return Ok(desired);
  }

  ghost function AppliedText(base: Text, replacements: seq<Replacement>): Result<Text, ReviewError> {
    if !AllUnique(base, replacements) then Err(BaseStale)
    else
      var ordered := SortByStart(Spans(base, replacements));
      if !NoNeighbourOverlap(ordered) then Err(AnchorOverlap)
      else
        OrderedSpans(base, replacements);
        Ok(Substitute(base, ordered, 0))
  }

  lemma {:induction false} ShiftKeeps(ordered: seq<Span>, delta: int)
    ensures forall i :: 0 <= i < |ordered| ==>
              var r := ShiftAll(ordered, delta)[i];
              r.start == ordered[i].start && r.end == ordered[i].end && r.replacement == ordered[i].replacement
              && r.desiredEnd == r.desiredStart + |r.replacement|
  {
    if ordered != [] {
      ShiftKeeps(ordered[1..], delta + Growth(ordered[0]));
    }
  }

  /** The approved text and the reviewed text: same text, same rejections, except that only the
      editor rejects an edit that changes nothing. */
  lemma EditorAndReviewerAgree(base: Text, replacements: seq<Replacement>)
    ensures match (DesiredTextOf(base, replacements), AppliedText(base, replacements))
            case (Ok(edited), Ok(reviewed)) => edited == reviewed && edited != base
            case (Err(Unchanged), Ok(reviewed)) => reviewed == base
            case (Err(NotUnique), Err(BaseStale)) => true
            case (Err(Overlap), Err(AnchorOverlap)) => true
            case _ => false
  {
  }

  // ----- how the resolved spans relate base and desired text -----

  /** Gap i is the unchanged text before span i (after the last span when i == |spans|). */
  function GapStart(spans: seq<Resolved>, i: nat): nat
    requires i <= |spans|
  {
    if i == 0 then 0 else spans[i - 1].end
  }

  function GapEnd(spans: seq<Resolved>, i: nat, limit: nat): nat
    requires i <= |spans|
  {
    if i == |spans| then limit else spans[i].start
  }

  function DesiredGapStart(spans: seq<Resolved>, i: nat): int
    requires i <= |spans|
  {
    if i == 0 then 0 else spans[i - 1].desiredEnd
  }

  function DesiredGapEnd(spans: seq<Resolved>, i: nat, limit: nat): int
    requires i <= |spans|
  {
    if i == |spans| then limit else spans[i].desiredStart
  }

  /** Gap i is the same text in both files. */
  predicate GapCopied(base: Text, desired: Text, spans: seq<Resolved>, i: nat)
    requires i <= |spans|
  {
    var lo, hi := GapStart(spans, i), GapEnd(spans, i, |base|);
    var dlo, dhi := DesiredGapStart(spans, i), DesiredGapEnd(spans, i, |desired|);
    lo <= hi <= |base| && 0 <= dlo <= dhi <= |desired| && base[lo..hi] == desired[dlo..dhi]
  }

  /** Span i is a non-empty range of the base, and its desired range holds exactly its new text. */
  predicate SpanReplaced(base: Text, desired: Text, s: Resolved) {
    s.start < s.end <= |base| && 0 <= s.desiredStart <= s.desiredEnd <= |desired|
    && desired[s.desiredStart..s.desiredEnd] == s.replacement
  }

  /** base and desired are the same gaps with each span's range replaced by its new text. */
  predicate Edits(base: Text, desired: Text, spans: seq<Resolved>) {
    (forall i :: 0 <= i <= |spans| ==> GapCopied(base, desired, spans, i))
    && (forall i :: 0 <= i < |spans| ==> SpanReplaced(base, desired, spans[i]))
  }

  /** As Edits, for the text from `from` (in the base) and `from + delta` (in the desired text) on. */
  ghost predicate EditsFrom(base: Text, desired: Text, spans: seq<Resolved>, from: nat, delta: int) {
    from <= |base| && 0 <= from + delta <= |desired| &&
    if spans == [] then base[from..] == desired[from + delta..]
    else
      var s := spans[0];
      && from <= s.start && s.desiredStart == s.start + delta
      && SpanReplaced(base, desired, s)
      && base[from..s.start] == desired[from + delta..s.desiredStart]
      && EditsFrom(base, desired, spans[1..], s.end, s.desiredEnd - s.end)
  }

  lemma ThreeParts(whole: Text, a: Text, b: Text, c: Text)
    requires whole == a + b + c
    ensures whole[..|a|] == a && whole[|a|..|a| + |b|] == b && whole[|a| + |b|..] == c
  {
  }

  lemma SubSlices(t: Text, at: nat, i: nat, j: nat)
    requires at + i <= at + j <= |t|
    ensures t[at..][..i] == t[at..at + i] && t[at..][i..j] == t[at + i..at + j] && t[at..][j..] == t[at + j..]
  {
  }

  lemma {:induction false} ShiftHead(base: Text, desired: Text, ordered: seq<Span>, from: nat, delta: int)
    requires ordered != [] && Ordered(ordered, from, |base|) && 0 <= from + delta <= |desired|
    requires desired[from + delta..] == Substitute(base, ordered, from)
    ensures var s, next := ordered[0], delta + Growth(ordered[0]);
            && SpanReplaced(base, desired, Shifted(s, delta))
            && base[from..s.start] == desired[from + delta..s.start + delta]
            && 0 <= s.end + next <= |desired|
            && desired[s.end + next..] == Substitute(base, ordered[1..], s.end)
  {
    var s, at := ordered[0], from + delta;
    var gap := s.start - from;
    ThreeParts(desired[at..], base[from..s.start], s.replacement, Substitute(base, ordered[1..], s.end));
    SubSlices(desired, at, gap, gap + |s.replacement|);
  }

  lemma {:induction false} ShiftEdits(base: Text, desired: Text, ordered: seq<Span>, from: nat, delta: int)
    requires Ordered(ordered, from, |base|) && 0 <= from + delta <= |desired|
    requires desired[from + delta..] == Substitute(base, ordered, from)
    ensures EditsFrom(base, desired, ShiftAll(ordered, delta), from, delta)
  {
    if ordered != [] {
      ShiftHead(base, desired, ordered, from, delta);
      ShiftEdits(base, desired, ordered[1..], ordered[0].end, delta + Growth(ordered[0]));
    }
  }

  lemma {:induction false} EditsFromIndex(base: Text, desired: Text, spans: seq<Resolved>, from: nat, delta: int, i: nat)
    requires EditsFrom(base, desired, spans, from, delta) && i <= |spans|
    ensures i > 0 ==> GapCopied(base, desired, spans, i)
    ensures i == 0 ==> var hi, dhi := GapEnd(spans, 0, |base|), DesiredGapEnd(spans, 0, |desired|);
                       from <= hi <= |base| && from + delta <= dhi <= |desired|
                       && base[from..hi] == desired[from + delta..dhi]
    ensures i < |spans| ==> SpanReplaced(base, desired, spans[i])
  {
    if i > 0 {
      var s := spans[0];
      EditsFromIndex(base, desired, spans[1..], s.end, s.desiredEnd - s.end, i - 1);
    }
  }

  /** Each resolved desired range holds exactly its new text, and nothing else changes. */
  lemma ResolvedEdits(base: Text, replacements: seq<Replacement>)
    requires ResolvedOf(base, replacements).Ok?
    ensures AppliedText(base, replacements).Ok?
    ensures Edits(base, AppliedText(base, replacements).value, ResolvedOf(base, replacements).value)
  {
    var ordered := SortByStart(Spans(base, replacements));
    OrderedSpans(base, replacements);
    var desired := Substitute(base, ordered, 0);
    assert desired[0 + 0..] == desired;
    ShiftEdits(base, desired, ordered, 0, 0);
    EditsFromStart(base, desired, ShiftAll(ordered, 0));
  }

  lemma EditsFromStart(base: Text, desired: Text, spans: seq<Resolved>)
    requires EditsFrom(base, desired, spans, 0, 0)
    ensures Edits(base, desired, spans)
  {
    forall i | 0 <= i <= |spans|
      ensures GapCopied(base, desired, spans, i)
      ensures i < |spans| ==> SpanReplaced(base, desired, spans[i])
    {
      EditsFromIndex(base, desired, spans, 0, 0, i);
    }
  }
}
