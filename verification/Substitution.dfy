/** What the splice means: one simultaneous left-to-right pass, whatever the order of the list. */
module Substitution {
  import opened Utf16
  import opened Results
  import opened Anchors

  /** A replacement whose old text starts here, if there is one. */
  function MatchAt(base: Text, replacements: seq<Replacement>, at: nat): (m: Option<Replacement>)
    ensures m.Some? ==> m.value in replacements && OccursAt(base, m.value.oldText, at)
    ensures m.None? ==> forall r :: r in replacements ==> !OccursAt(base, r.oldText, at)
  {
    if replacements == [] then None
    else if OccursAt(base, replacements[0].oldText, at) then Some(replacements[0])
    else MatchAt(base, replacements[1..], at)
  }

  /** The reference: at each position either a replacement's old text starts here, or a unit is copied. */
  function Simultaneous(base: Text, replacements: seq<Replacement>, at: nat): Text
    requires at <= |base| && forall r :: r in replacements ==> r.oldText != []
    decreases |base| - at
  {
    match MatchAt(base, replacements, at)
    case Some(r) => r.newText + Simultaneous(base, replacements, at + |r.oldText|)
    case None => if at == |base| then [] else [base[at]] + Simultaneous(base, replacements, at + 1)
  }

  /** Every span comes from a replacement whose old text starts there and nowhere else. */
  ghost predicate Located(base: Text, replacements: seq<Replacement>, s: Span) {
    exists r :: r in replacements && SpanFor(base, r, s)
  }

  ghost predicate AllLocated(base: Text, replacements: seq<Replacement>, spans: seq<Span>) {
    forall i :: 0 <= i < |spans| ==> Located(base, replacements, spans[i])
  }

  /** No occurrence at or after `from` is missing from the spans. */
  ghost predicate Covers(base: Text, replacements: seq<Replacement>, spans: seq<Span>, from: nat) {
    forall r, i :: r in replacements && from <= i && OccursAt(base, r.oldText, i)
                   ==> Span(i, i + |r.oldText|, r.newText) in spans
  }

  lemma MatchIsFirstSpan(base: Text, replacements: seq<Replacement>, spans: seq<Span>, from: nat, r: Replacement)
    requires Ordered(spans, from, |base|) && Covers(base, replacements, spans, from)
    requires r in replacements && OccursAt(base, r.oldText, from)
    ensures spans != [] && spans[0] == Span(from, from + |r.oldText|, r.newText)
  {
    var k :| 0 <= k < |spans| && spans[k] == Span(from, from + |r.oldText|, r.newText);
    assert from <= spans[0].start < spans[0].end;
  }

  lemma TailCovers(base: Text, replacements: seq<Replacement>, spans: seq<Span>, from: nat)
    requires spans != [] && Ordered(spans, from, |base|) && Covers(base, replacements, spans, from)
    ensures Covers(base, replacements, spans[1..], spans[0].end)
  {
    forall r, i | r in replacements && spans[0].end <= i && OccursAt(base, r.oldText, i)
      ensures Span(i, i + |r.oldText|, r.newText) in spans[1..]
    {
      var k :| 0 <= k < |spans| && spans[k] == Span(i, i + |r.oldText|, r.newText);
      assert spans[1..][k - 1] == spans[k];
    }
  }

  lemma CopyStep(base: Text, replacements: seq<Replacement>, spans: seq<Span>, from: nat)
    requires from < |base| && Ordered(spans, from, |base|) && AllLocated(base, replacements, spans)
    requires MatchAt(base, replacements, from).None?
    ensures Ordered(spans, from + 1, |base|)
    ensures Substitute(base, spans, from) == [base[from]] + Substitute(base, spans, from + 1)
  {
    if spans != [] {
      assert Located(base, replacements, spans[0]);
      var r :| r in replacements && SpanFor(base, r, spans[0]);
      assert spans[0].start != from;
    }
    SubstituteEarlier(base, spans, from, from + 1);
    assert base[from..from + 1] == [base[from]];
  }

  lemma MatchStep(base: Text, spans: seq<Span>, from: nat)
    requires spans != [] && spans[0].start == from && Ordered(spans, from, |base|)
    ensures Substitute(base, spans, from) == spans[0].replacement + Substitute(base, spans[1..], spans[0].end)
  {
    assert base[from..from] == [];
  }

  lemma NothingLeft(base: Text, spans: seq<Span>)
    requires Ordered(spans, |base|, |base|)
    ensures Substitute(base, spans, |base|) == []
  {
  }

  lemma {:induction false} SubstituteIsSimultaneous(base: Text, replacements: seq<Replacement>,
                                                    spans: seq<Span>, from: nat)
    requires Ordered(spans, from, |base|) && AllLocated(base, replacements, spans)
    requires Covers(base, replacements, spans, from) && forall r :: r in replacements ==> r.oldText != []
    ensures Substitute(base, spans, from) == Simultaneous(base, replacements, from)
    decreases |base| - from
  {
    hide Substitute, Located, OccursAt, SpanFor;
    match MatchAt(base, replacements, from)
    case Some(r) =>
      MatchIsFirstSpan(base, replacements, spans, from, r);
      TailCovers(base, replacements, spans, from);
      SubstituteIsSimultaneous(base, replacements, spans[1..], spans[0].end);
      MatchStep(base, spans, from);
    case None =>
      if from < |base| {
        CopyStep(base, replacements, spans, from);
        SubstituteIsSimultaneous(base, replacements, spans, from + 1);
      } else {
        NothingLeft(base, spans);
      }
  }

  lemma SortedMembers(spans: seq<Span>, s: Span)
    ensures s in SortByStart(spans) <==> s in spans
  {
    var ordered := SortByStart(spans);
    assert s in ordered <==> s in multiset(ordered);
    assert s in spans <==> s in multiset(spans);
  }

  lemma LocatedSpans(base: Text, replacements: seq<Replacement>)
    requires AllUnique(base, replacements)
    ensures var ordered := SortByStart(Spans(base, replacements));
            AllLocated(base, replacements, ordered) && Covers(base, replacements, ordered, 0)
  {
    var spans := Spans(base, replacements);
    var ordered := SortByStart(spans);
    forall i | 0 <= i < |ordered| ensures Located(base, replacements, ordered[i]) {
      SortedMembers(spans, ordered[i]);
      var k :| 0 <= k < |spans| && spans[k] == ordered[i];
      assert replacements[k] in replacements && SpanFor(base, replacements[k], ordered[i]);
    }
    forall r, i | r in replacements && OccursAt(base, r.oldText, i)
      ensures Span(i, i + |r.oldText|, r.newText) in ordered
    {
      OccurrenceIsSpan(base, replacements, r, i);
      SortedMembers(spans, Span(i, i + |r.oldText|, r.newText));
    }
  }

  lemma OccurrenceIsSpan(base: Text, replacements: seq<Replacement>, r: Replacement, i: nat)
    requires AllUnique(base, replacements) && r in replacements && OccursAt(base, r.oldText, i)
    ensures Span(i, i + |r.oldText|, r.newText) in Spans(base, replacements)
  {
    var spans := Spans(base, replacements);
    var k :| 0 <= k < |replacements| && replacements[k] == r;
    assert SpanFor(base, r, spans[k]) && spans[k] in spans;
  }

  /** The right-to-left splice is the simultaneous left-to-right substitution. */
  lemma SpliceIsSimultaneous(base: Text, replacements: seq<Replacement>)
    requires DesiredTextOf(base, replacements).Ok?
    ensures DesiredTextOf(base, replacements).value == Simultaneous(base, replacements, 0)
  {
    hide Substitute, Simultaneous, OccursAt, Insert, SortByStart;
    OrderedSpans(base, replacements);
    LocatedSpans(base, replacements);
    SubstituteIsSimultaneous(base, replacements, SortByStart(Spans(base, replacements)), 0);
  }

  /** Taking one element out of each of two permutations, or putting it back. */
  lemma PermuteRest<T>(a: seq<T>, b: seq<T>, k: nat)
    requires a != [] && k < |b| && a[0] == b[k]
    ensures multiset(a) == multiset(b) <==> multiset(a[1..]) == multiset(b[..k] + b[k + 1..])
  {
    assert a == [a[0]] + a[1..];
    assert b == b[..k] + [b[k]] + b[k + 1..];
    if multiset(a) == multiset(b) {
      assert multiset(a[1..]) == multiset(a) - multiset{a[0]};
    }
  }

  lemma PermuteTails<T>(a: seq<T>, b: seq<T>)
    requires a != [] && b != [] && a[0] == b[0] && multiset(a) == multiset(b)
    ensures multiset(a[1..]) == multiset(b[1..])
  {
    PermuteRest(a, b, 0);
    assert b[..0] + b[1..] == b[1..];
  }

  lemma PositionOf<T>(x: T, a: seq<T>, b: seq<T>) returns (k: nat)
    requires multiset(a) == multiset(b) && x in a
    ensures k < |b| && b[k] == x
  {
    assert x in multiset(b);
    k :| 0 <= k < |b| && b[k] == x;
  }

  /** Sorting by start is determined by the spans when no two of them overlap. */
  lemma {:induction false} SortedUnique(a: seq<Span>, b: seq<Span>, limit: nat)
    requires multiset(a) == multiset(b) && SortedByStart(b) && Ordered(a, 0, limit)
    ensures a == b
  {
    if a != [] {
      SameHead(a, b, limit);
      PermuteTails(a, b);
      SortedUnique(a[1..], b[1..], limit);
      assert a == [a[0]] + a[1..] && b == [b[0]] + b[1..];
    } else {
      assert |multiset(a)| == |multiset(b)|;
    }
  }

  lemma SameHead(a: seq<Span>, b: seq<Span>, limit: nat)
    requires multiset(a) == multiset(b) && SortedByStart(b) && Ordered(a, 0, limit) && a != []
    ensures b != [] && a[0] == b[0]
  {
    var j := PositionOf(a[0], a, b);
    var i := PositionOf(b[0], b, a);
    assert b[0].start <= b[j].start && a[0].start < a[0].end;
  }

  /** Elementwise images of two permutations of one list are permutations of each other. */
  lemma {:induction false} ImagesPermute<A, B>(a1: seq<A>, a2: seq<A>, b1: seq<B>, b2: seq<B>)
    requires multiset(a1) == multiset(a2) && |b1| == |a1| && |b2| == |a2|
    requires forall i, j :: 0 <= i < |a1| && 0 <= j < |a2| && a1[i] == a2[j] ==> b1[i] == b2[j]
    ensures multiset(b1) == multiset(b2)
    decreases |a1|
  {
    if a1 == [] {
      assert |multiset(a1)| == |multiset(a2)|;
    } else {
      var k := PositionOf(a1[0], a1, a2);
      PermuteRest(a1, a2, k);
      PermuteRest(b1, b2, k);
      ImagesPermute(a1[1..], a2[..k] + a2[k + 1..], b1[1..], b2[..k] + b2[k + 1..]);
    }
  }

  lemma OverlapPermutes(base: Text, r1: seq<Replacement>, r2: seq<Replacement>)
    requires multiset(r1) == multiset(r2) && AllUnique(base, r1) && AllUnique(base, r2)
    requires NoNeighbourOverlap(SortByStart(Spans(base, r1)))
    ensures SortByStart(Spans(base, r2)) == SortByStart(Spans(base, r1))
  {
    ImagesPermute(r1, r2, Spans(base, r1), Spans(base, r2));
    OrderedSpans(base, r1);
    SortedUnique(SortByStart(Spans(base, r1)), SortByStart(Spans(base, r2)), |base|);
  }

  /** Text and errors alike do not depend on the order of the replacement list. */
  lemma OrderIndependent(base: Text, r1: seq<Replacement>, r2: seq<Replacement>)
    requires multiset(r1) == multiset(r2)
    ensures DesiredTextOf(base, r1) == DesiredTextOf(base, r2)
  {
    assert forall r :: r in r1 <==> r in multiset(r1);
    assert forall r :: r in r2 <==> r in multiset(r2);
    assert AllUnique(base, r1) <==> AllUnique(base, r2);
    if AllUnique(base, r1) {
      if NoNeighbourOverlap(SortByStart(Spans(base, r1))) {
        OverlapPermutes(base, r1, r2);
      } else if NoNeighbourOverlap(SortByStart(Spans(base, r2))) {
        OverlapPermutes(base, r2, r1);
      }
    }
  }
}
