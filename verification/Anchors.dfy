/** Unique text anchors, their spans, and the spliced text (anchor-edit.ts, git-review.ts). */
module Anchors {
  import opened Utf16
  import opened Results

  datatype Replacement = Replacement(oldText: Text, newText: Text)
  datatype Span = Span(start: nat, end: nat, replacement: Text)
  datatype EditError = NotUnique | Overlap | Unchanged

  predicate OccursAt(base: Text, pattern: Text, i: int) {
    0 <= i && i + |pattern| <= |base| && base[i..i + |pattern|] == pattern
  }

  function SearchFrom(base: Text, pattern: Text, from: nat): (index: int)
    requires from <= |base|
    ensures index == -1 || (from <= index && OccursAt(base, pattern, index))
    ensures forall i :: from <= i && (index == -1 || i < index) ==> !OccursAt(base, pattern, i)
    decreases |base| - from
  {
    if from + |pattern| > |base| then -1
    else if base[from..from + |pattern|] == pattern then from
    else SearchFrom(base, pattern, from + 1)
  }

  /** `base.indexOf(pattern, from)`: a start beyond the end is clamped to the end. */
  function IndexOf(base: Text, pattern: Text, from: nat): (index: int)
    ensures index == -1 || OccursAt(base, pattern, index)
    ensures from <= |base| ==> (index == -1 || from <= index)
    ensures forall i :: from <= i && (index == -1 || i < index) ==> !OccursAt(base, pattern, i) || i > |base|
  {
    SearchFrom(base, pattern, if from <= |base| then from else |base|)
  }

  ghost predicate OnlyOccurrence(base: Text, pattern: Text, i: int) {
    OccursAt(base, pattern, i) && forall j :: OccursAt(base, pattern, j) ==> j == i
  }

  /** What the anchor test is for: a non-empty text that occurs exactly once. */
  ghost predicate UniqueAnchor(base: Text, pattern: Text) {
    pattern != [] && exists i :: OnlyOccurrence(base, pattern, i)
  }

  /** The two indexOf probes accept an anchor exactly when it is non-empty and occurs once. */
  lemma AnchorProbes(base: Text, pattern: Text)
    ensures var first := IndexOf(base, pattern, 0);
            && ((first >= 0 && IndexOf(base, pattern, first + 1) < 0) <==> UniqueAnchor(base, pattern))
            && (UniqueAnchor(base, pattern) ==> OnlyOccurrence(base, pattern, first))
  {
    var first := IndexOf(base, pattern, 0);
    if first >= 0 {
      var second := IndexOf(base, pattern, first + 1);
      if pattern == [] {
        assert OccursAt(base, pattern, if first + 1 <= |base| then first + 1 else |base|);
      } else if second < 0 {
        assert OnlyOccurrence(base, pattern, first);
      } else {
        assert OccursAt(base, pattern, first) && OccursAt(base, pattern, second);
      }
    }
  }

  ghost predicate AllUnique(base: Text, replacements: seq<Replacement>) {
    forall r :: r in replacements ==> UniqueAnchor(base, r.oldText)
  }

  /** s is where replacement r goes: its old text's one occurrence, and its new text. */
  ghost predicate SpanFor(base: Text, r: Replacement, s: Span) {
    s.end == s.start + |r.oldText| && s.replacement == r.newText && OnlyOccurrence(base, r.oldText, s.start)
  }

  ghost function SpanOf(base: Text, r: Replacement): (s: Span)
    requires UniqueAnchor(base, r.oldText)
    ensures SpanFor(base, r, s)
  {
    AnchorProbes(base, r.oldText);
    var start := IndexOf(base, r.oldText, 0);
    Span(start, start + |r.oldText|, r.newText)
  }

  ghost function Spans(base: Text, replacements: seq<Replacement>): (spans: seq<Span>)
    requires AllUnique(base, replacements)
    ensures |spans| == |replacements|
    ensures forall i :: 0 <= i < |spans| ==> SpanFor(base, replacements[i], spans[i])
    ensures forall i :: 0 <= i < |spans| ==> spans[i].start < spans[i].end <= |base|
  {
    seq(|replacements|, i requires 0 <= i < |replacements| => SpanOf(base, replacements[i]))
  }

  predicate SortedByStart(spans: seq<Span>) {
    forall i, j :: 0 <= i < j < |spans| ==> spans[i].start <= spans[j].start
  }

  function Insert(sorted: seq<Span>, span: Span): seq<Span> {
    if sorted == [] || sorted[|sorted| - 1].start <= span.start then sorted + [span]
    else Insert(sorted[..|sorted| - 1], span) + [sorted[|sorted| - 1]]
  }

  lemma {:induction false} InsertSorts(sorted: seq<Span>, span: Span)
    requires SortedByStart(sorted)
    ensures SortedByStart(Insert(sorted, span)) && |Insert(sorted, span)| == |sorted| + 1
    ensures sorted != [] && sorted[|sorted| - 1].start > span.start ==> Insert(sorted, span)[|sorted|] == sorted[|sorted| - 1]
    ensures sorted == [] || sorted[|sorted| - 1].start <= span.start ==> Insert(sorted, span)[|sorted|] == span
  {
    if sorted != [] && sorted[|sorted| - 1].start > span.start {
      InsertSorts(sorted[..|sorted| - 1], span);
    }
  }

  lemma {:induction false} InsertKeeps(sorted: seq<Span>, span: Span)
    ensures multiset(Insert(sorted, span)) == multiset(sorted) + multiset{span}
  {
    if sorted != [] && sorted[|sorted| - 1].start > span.start {
      InsertKeeps(sorted[..|sorted| - 1], span);
      assert sorted == sorted[..|sorted| - 1] + [sorted[|sorted| - 1]];
    }
  }

  /** `spans.sort((left, right) => left.start - right.start)`: stable. */
  function SortByStart(spans: seq<Span>): (r: seq<Span>)
    ensures SortedByStart(r) && multiset(r) == multiset(spans)
  {
    if spans == [] then []
    else
      var front, last := spans[..|spans| - 1], spans[|spans| - 1];
      assert spans == front + [last];
      InsertSorts(SortByStart(front), last);
      InsertKeeps(SortByStart(front), last);
      Insert(SortByStart(front), last)
  }

  /** The overlap loop's test: neighbours do not overlap. */
  predicate NoNeighbourOverlap(spans: seq<Span>) {
    forall i :: 0 < i < |spans| ==> spans[i - 1].end <= spans[i].start
  }

  /** Ordered, disjoint, non-empty spans within [from, limit]. */
  predicate Ordered(spans: seq<Span>, from: nat, limit: nat) {
    && from <= limit
    && (forall i, j :: 0 <= i < j < |spans| ==> spans[i].end <= spans[j].start)
    && (forall i :: 0 <= i < |spans| ==> from <= spans[i].start < spans[i].end <= limit)
  }

  lemma NeighboursSuffice(spans: seq<Span>, limit: nat)
    requires NoNeighbourOverlap(spans)
    requires forall i :: 0 <= i < |spans| ==> spans[i].start < spans[i].end <= limit
    ensures Ordered(spans, 0, limit)
  {
    forall i, j | 0 <= i < j < |spans| ensures spans[i].end <= spans[j].start {
      NeighboursChain(spans, i, j);
    }
  }

  lemma NeighboursChain(spans: seq<Span>, i: nat, j: nat)
    requires NoNeighbourOverlap(spans) && forall k :: 0 <= k < |spans| ==> spans[k].start < spans[k].end
    requires i < j < |spans|
    ensures spans[i].end <= spans[j].start
    decreases j - i
  {
    if i + 1 < j {
      NeighboursChain(spans, i, j - 1);
      assert spans[j - 1].end <= spans[j].start;
    }
  }

  /** Left-to-right substitution of ordered spans. */
  function Substitute(base: Text, spans: seq<Span>, from: nat): Text
    requires Ordered(spans, from, |base|)
  {
    if spans == [] then base[from..]
    else base[from..spans[0].start] + spans[0].replacement + Substitute(base, spans[1..], spans[0].end)
  }

  /** Starting earlier only prepends base text. */
  lemma {:induction false} SubstituteEarlier(base: Text, spans: seq<Span>, from: nat, later: nat)
    requires from <= later && Ordered(spans, later, |base|)
    ensures Ordered(spans, from, |base|)
    ensures Substitute(base, spans, from) == base[from..later] + Substitute(base, spans, later)
  {
    if spans == [] {
      assert base[from..] == base[from..later] + base[later..];
    } else {
      var rest := spans[0].replacement + Substitute(base, spans[1..], spans[0].end);
      assert base[from..spans[0].start] == base[from..later] + base[later..spans[0].start];
      assert Substitute(base, spans, later) == base[later..spans[0].start] + rest;
      assert Substitute(base, spans, from) == base[from..spans[0].start] + rest;
    }
  }

  /** One right-to-left splice turns the substitution of the later spans into one more span's. */
  lemma {:induction false} SpliceStep(base: Text, spans: seq<Span>, k: nat)
    requires Ordered(spans, 0, |base|) && k < |spans|
    ensures Ordered(spans[k..], 0, |base|) && Ordered(spans[k + 1..], 0, |base|)
    ensures var tail := Substitute(base, spans[k + 1..], 0);
            && spans[k].start <= spans[k].end <= |tail|
            && Substitute(base, spans[k..], 0)
               == tail[..spans[k].start] + spans[k].replacement + tail[spans[k].end..]
  {
    var s := spans[k];
    SubstituteEarlier(base, spans[k + 1..], 0, s.end);
    assert spans[k..][1..] == spans[k + 1..];
    var rest := Substitute(base, spans[k + 1..], s.end);
    var tail := Substitute(base, spans[k + 1..], 0);
    assert tail == base[..s.end] + rest;
    assert tail[..s.start] == base[..s.start] && tail[s.end..] == rest;
    assert Substitute(base, spans[k..], 0) == base[..s.start] + s.replacement + rest;
  }

  /** The right-to-left splicing loop shared by desiredText and applyAnchors. */
  method Splice(base: Text, ordered: seq<Span>) returns (result: Text)
    requires Ordered(ordered, 0, |base|)
    ensures result == Substitute(base, ordered, 0)
  {
    result := base;
    var k := |ordered|;
    while k > 0
      invariant 0 <= k <= |ordered|
      invariant Ordered(ordered[k..], 0, |base|)
      invariant result == Substitute(base, ordered[k..], 0)
    {
      k := k - 1;
      SpliceStep(base, ordered, k);
      result := result[..ordered[k].start] + ordered[k].replacement + result[ordered[k].end..];
    }
    assert ordered[0..] == ordered;
  }

  /** The located spans in order, when no two of them overlap. */
  lemma OrderedSpans(base: Text, replacements: seq<Replacement>)
    requires AllUnique(base, replacements)
    requires NoNeighbourOverlap(SortByStart(Spans(base, replacements)))
    ensures Ordered(SortByStart(Spans(base, replacements)), 0, |base|)
  {
    var ordered := SortByStart(Spans(base, replacements));
    forall i | 0 <= i < |ordered| ensures ordered[i].start < ordered[i].end <= |base| {
      assert ordered[i] in multiset(ordered);
      assert ordered[i] in Spans(base, replacements);
    }
    NeighboursSuffice(ordered, |base|);
  }

  /** What desiredText computes: its error, or the substituted text. */
  ghost function DesiredTextOf(base: Text, replacements: seq<Replacement>): Result<Text, EditError> {
    if !AllUnique(base, replacements) then Err(NotUnique)
    else
      var ordered := SortByStart(Spans(base, replacements));
      if !NoNeighbourOverlap(ordered) then Err(Overlap)
      else
        OrderedSpans(base, replacements);
        var result := Substitute(base, ordered, 0);
        if result == base then Err(Unchanged) else Ok(result)
  }

  /** The locating loop: every span, or that some anchor is not unique. */
  method LocateSpans(base: Text, replacements: seq<Replacement>) returns (spans: Option<seq<Span>>)
    ensures spans.Some? <==> AllUnique(base, replacements)
    ensures spans.Some? ==> spans.value == Spans(base, replacements)
  {
    var found: seq<Span> := [];
    for i := 0 to |replacements|
      invariant forall k :: 0 <= k < i ==> UniqueAnchor(base, replacements[k].oldText)
      invariant |found| == i
      invariant forall k :: 0 <= k < i ==> found[k] == SpanOf(base, replacements[k])
    {
      var oldText := replacements[i].oldText;
      var first := IndexOf(base, oldText, 0);
      var second := if first < 0 then -1 else IndexOf(base, oldText, first + 1);
      AnchorProbes(base, oldText);
      if first < 0 || second >= 0 {
        assert replacements[i] in replacements;
        return None;
      }
      found := found + [Span(first, first + |oldText|, replacements[i].newText)];
    }
    return Some(found);
  }

  /** The overlap loop. */
  method FindOverlap(ordered: seq<Span>) returns (found: bool)
    ensures found <==> !NoNeighbourOverlap(ordered)
  {
    var index := 1;
    while index < |ordered|
      invariant 1 <= index
      invariant forall i :: 0 < i < index && i < |ordered| ==> ordered[i - 1].end <= ordered[i].start
    {
      if ordered[index - 1].end > ordered[index].start {
        return true;
      }
      index := index + 1;
    }
    return false;
  }

  method DesiredText(base: Text, replacements: seq<Replacement>) returns (r: Result<Text, EditError>)
    ensures r == DesiredTextOf(base, replacements)
  {
    var spans := LocateSpans(base, replacements);
    if spans.None? {
      return Err(NotUnique);
    }
    var ordered := SortByStart(spans.value);
    var overlap := FindOverlap(ordered);
    if overlap {
      return Err(Overlap);
    }
    OrderedSpans(base, replacements);
    var result := Splice(base, ordered);
    return if result == base then Err(Unchanged) else Ok(result);
  }
}
