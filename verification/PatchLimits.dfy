/** Edits whose printed patch does not lead to the desired file: two families and an input of each. */
module PatchLimits {
  import opened Utf16
  import opened Results
  import opened Anchors
  import opened ReviewAnchors
  import opened Lines
  import opened PatchWindows
  import opened PatchHunks
  import opened PatchAlignment
  import opened PatchExactness
  import opened EdenPatch

  ghost predicate PatchFails(e: Edit)
    requires e.Valid()
  {
    forall hunks :: HunksFor(e.baseLines, e.desiredLines, e.merged, hunks)
                    ==> Apply(e.baseLines, hunks, 0, 0) != Some(e.desiredLines)
  }

  lemma MisalignedFails(e: Edit)
    requires e.Valid() && !Aligned(e)
    ensures PatchFails(e)
  {
    forall hunks | HunksFor(e.baseLines, e.desiredLines, e.merged, hunks)
      ensures Apply(e.baseLines, hunks, 0, 0) != Some(e.desiredLines)
    {
      RecoversIffAligned(e, hunks);
    }
  }

  lemma LastWindowEnd(e: Edit)
    requires e.Valid() && e.spans != []
    ensures e.merged != [] && e.merged[|e.merged| - 1].baseEnd == e.windows[|e.spans| - 1].baseEnd
  {
    assert GroupShape(e.windows, e.merged, e.firsts, |e.merged| - 1);
  }

  /** The last replacement gives up or adds a final newline, and four more lines follow it. */
  lemma NewlineLostFails(e: Edit, s: Resolved)
    requires e.Valid() && e.spans != [] && s == e.spans[|e.spans| - 1] && SpanReplaced(e.base, e.desired, s)
    requires TailShift(e.base, s) != 0 && LineOf(e.base, s.end - 1) + 4 < |e.baseLines|
    ensures PatchFails(e)
  {
    LastWindowEnd(e);
    assert e.windows[|e.spans| - 1] == WindowOf(e.base, e.desired, s);
    assert !TailAligned(e);
    MisalignedFails(e);
  }

  /** The first replacement deletes the whole rest of the file, beyond its fourth line. */
  lemma TruncationFails(e: Edit)
    requires e.Valid() && e.spans != []
    requires SpanReplaced(e.base, e.desired, e.spans[0])
    requires CutAtEnd(e.desired, e.spans[0]) && LineOf(e.base, e.spans[0].start) > 3
    ensures PatchFails(e)
  {
    MisalignedFails(e);
  }

  /** One replacement: where its span lies and what it leads to. */
  lemma SingleEdit(base: Text, r: Replacement, at: nat)
    requires r.oldText != [] && OnlyOccurrence(base, r.oldText, at)
    ensures var desired := base[..at] + r.newText + base[at + |r.oldText|..];
            && AppliedText(base, [r]) == Ok(desired)
            && ResolvedOf(base, [r]) == Ok([Resolved(at, at + |r.oldText|, r.newText, at, at + |r.newText|)])
            && DesiredTextOf(base, [r]) == if desired == base then Err(Unchanged) else Ok(desired)
  {
    var s := Span(at, at + |r.oldText|, r.newText);
    assert UniqueAnchor(base, r.oldText);
    assert SpanFor(base, r, s) && Spans(base, [r]) == [s];
    SingleSorted(s);
    SingleSubstitution(base, s);
  }

  lemma SingleSorted(s: Span)
    ensures SortByStart([s]) == [s]
  {
    assert SortByStart([]) == [];
    assert [s][..0] == [];
  }

  lemma SingleSubstitution(base: Text, s: Span)
    requires s.start < s.end <= |base|
    ensures Substitute(base, [s], 0) == base[..s.start] + s.replacement + base[s.end..]
    ensures ShiftAll([s], 0) == [Resolved(s.start, s.end, s.replacement, s.start, s.start + |s.replacement|)]
  {
    assert [s][1..] == [];
    assert base[0..s.start] == base[..s.start];
  }

  /** The ten units "a\nb\nc\nd\ne\n": five lines. */
  predicate FiveLines(t: Text) {
    |t| == 10 && t[1] == t[3] == t[5] == t[7] == t[9] == NEWLINE
    && t[0] == 0x61 && t[2] == 0x62 && t[4] == 0x63 && t[6] == 0x64 && t[8] == 0x65
  }

  lemma LetterLine(t: Text, i: nat)
    requires i + 2 <= |t| && t[i] != NEWLINE && t[i + 1] == NEWLINE
    ensures Newlines(t[..i + 2]) == Newlines(t[..i]) + 1 && Newlines(t[..i + 1]) == Newlines(t[..i])
  {
    NewlinesStep(t, i);
    NewlinesStep(t, i + 1);
  }

  lemma FiveLineNumbers(t: Text)
    requires FiveLines(t)
    ensures Newlines(t[..1]) == 0 && Newlines(t[..8]) == 4 && |SplitLines(t)| == 5
  {
    assert t[..0] == [] && t[..10] == t;
    LetterLine(t, 0);
    LetterLine(t, 2);
    LetterLine(t, 4);
    LetterLine(t, 6);
    LetterLine(t, 8);
    LineCount(t);
  }

  lemma LineIsUnique(t: Text, at: nat)
    requires FiveLines(t) && (at == 0 || at == 8)
    ensures OnlyOccurrence(t, t[at..at + 2], at)
  {
    var line := t[at..at + 2];
    forall j | OccursAt(t, line, j) ensures j == at {
      assert t[j..j + 2][0] == line[0];
    }
  }

  /** Deleting the first of five lines: the hunk covers lines 1-4 of both files, and line 5 is left over. */
  lemma DeletingFirstLineFails(t: Text)
    requires FiveLines(t)
    ensures var rs := [Replacement(t[0..2], [])];
            && DesiredTextOf(t, rs).Ok? && ResolvedOf(t, rs).Ok? && PatchFails(EditOf(t, rs))
  {
    hide SplitLines, WindowOf, Newlines, Apply;
    var r := Replacement(t[0..2], []);
    LineIsUnique(t, 0);
    SingleEdit(t, r, 0);
    assert |t[..0] + [] + t[2..]| == 8;
    FiveLineNumbers(t);
    var e := EditOf(t, [r]);
    assert e.spans[0] == Resolved(0, 2, [], 0, 0) && EndsInNewline(t[0..2]);
    assert SpanReplaced(e.base, e.desired, e.spans[0]);
    NewlineLostFails(e, e.spans[0]);
  }

  /** Deleting the last of five lines: the hunk's two ranges start at different lines of the common part. */
  lemma DeletingLastLineFails(t: Text)
    requires FiveLines(t)
    ensures var rs := [Replacement(t[8..10], [])];
            && DesiredTextOf(t, rs).Ok? && ResolvedOf(t, rs).Ok? && PatchFails(EditOf(t, rs))
  {
    hide SplitLines, WindowOf, Newlines, Apply;
    var r := Replacement(t[8..10], []);
    LineIsUnique(t, 8);
    SingleEdit(t, r, 8);
    var desired := t[..8] + [] + t[10..];
    assert |desired| == 8 && desired[7] == NEWLINE;
    FiveLineNumbers(t);
    var e := EditOf(t, [r]);
    assert e.spans[0] == Resolved(8, 10, [], 8, 8);
    TruncationFails(e);
  }
}
