/** The reviewed patch as a whole: checks, hunks, printed text and byte budget (git-review.ts). */
module EdenPatch {
  import opened Utf16
  import opened Results
  import opened Anchors
  import opened ReviewAnchors
  import opened Lines
  import opened PatchWindows
  import opened PatchHunks
  import opened PatchPrinting
  import opened PatchText
  import opened PatchReader
  import opened PatchRoundTrip
  import opened PatchAlignment
  import opened PatchExactness

  type Digest = string

  datatype Operation =
    | AnchorEdit(path: Text, baseByteLength: nat, baseDigest: Digest, desiredByteLength: nat, desiredDigest: Digest,
                 replacements: seq<Replacement>)
    | WriteFile(path: Text, byteLength: nat, digest: Digest, content: Text)
    | RunCommand

  datatype PatchError = ActionInvalid | Stale | AnchorsOverlap | DesiredMismatch
  datatype Observation = Complete(content: Text, byteLength: nat) | Blocked

  const REVIEW_BYTE_LIMIT := 24_576
  const NEW_FILE_BYTE_LIMIT := 57_344

  function CompletePatch(content: Text, limit: nat): Observation {
    if ByteLength(content) > limit then Blocked else Complete(content, ByteLength(content))
  }

  /** The windows of the resolved spans, by binary search over the two line-start tables. */
  method FindWindows(base: Text, desired: Text, spans: seq<Resolved>) returns (windows: seq<Window>)
    requires forall i :: 0 <= i < |spans| ==> SpanReplaced(base, desired, spans[i])
    ensures windows == WindowsOf(base, desired, spans)
  {
    var baseLines, desiredLines := SplitLines(base), SplitLines(desired);
    var baseStarts := LineStarts(baseLines);
    var desiredStarts := LineStarts(desiredLines);
    windows := [];
    for i := 0 to |spans|
      invariant |windows| == i && forall k :: 0 <= k < i ==> windows[k] == WindowOf(base, desired, spans[k])
    {
      var span := spans[i];
      var baseFirst: int := LineAt(base, baseStarts, span.start);
      var baseLast := LineAt(base, baseStarts, Max(span.start, span.end - 1));
      var desiredFirst: int := LineAt(desired, desiredStarts, span.desiredStart);
      var desiredLast := LineAt(desired, desiredStarts, Max(span.desiredStart, span.desiredEnd - 1));
      windows := windows + [Window(Max(0, baseFirst - 3), Min(|baseLines|, baseLast + 4),
                                   Max(0, desiredFirst - 3), Min(|desiredLines|, desiredLast + 4))];
    }
  }

  method FindHunks(base: Text, desired: Text, spans: seq<Resolved>) returns (hunks: seq<Hunk>)
    requires Edits(base, desired, spans)
    ensures HunksFor(SplitLines(base), SplitLines(desired), Merge(WindowsOf(base, desired, spans)), hunks)
  {
    hide SplitLines, Merge, WindowsOf, HunkFor;
    var found := FindWindows(base, desired, spans);
    var windows := MergeWindows(found);
    var baseLines, desiredLines := SplitLines(base), SplitLines(desired);
    ghost var e := MakeEdit(base, desired, spans);
    hunks := [];
    for i := 0 to |windows|
      invariant |hunks| == i
      invariant forall k :: 0 <= k < i ==> e.InFiles(k) && HunkFor(baseLines, desiredLines, windows[k], hunks[k])
    {
      assert e.InFiles(i);
      var h := BuildHunk(baseLines, desiredLines, windows[i]);
      hunks := hunks + [h];
    }
  }

  /** The edit that an operation describes, when its anchors resolve. */
  ghost function EditOf(base: Text, replacements: seq<Replacement>): Edit
    requires ResolvedOf(base, replacements).Ok?
  {
    ResolvedEdits(base, replacements);
    MakeEdit(base, AppliedText(base, replacements).value, ResolvedOf(base, replacements).value)
  }

  ghost predicate Approved(operation: Operation, base: Text, sha: Text -> Digest)
    requires operation.AnchorEdit?
  {
    && ByteLength(base) == operation.baseByteLength && sha(base) == operation.baseDigest
    && AppliedText(base, operation.replacements).Ok?
    && ByteLength(AppliedText(base, operation.replacements).value) == operation.desiredByteLength
    && sha(AppliedText(base, operation.replacements).value) == operation.desiredDigest
  }

  /** Why an anchor edit that is not approved is rejected. */
  ghost function EditRejection(operation: Operation, base: Text, sha: Text -> Digest): PatchError
    requires operation.AnchorEdit?
  {
    if ByteLength(base) != operation.baseByteLength || sha(base) != operation.baseDigest then Stale
    else
      match AppliedText(base, operation.replacements)
      case Err(BaseStale) => Stale
      case Err(AnchorOverlap) => AnchorsOverlap
      case Ok(_) => DesiredMismatch
  }

  function NewFilePatch(operation: Operation, base: Text, sha: Text -> Digest): Result<Observation, PatchError>
    requires operation.WriteFile?
  {
    if base != [] then Err(Stale)
    else if ByteLength(operation.content) != operation.byteLength || sha(operation.content) != operation.digest
    then Err(DesiredMismatch)
    else Ok(CompletePatch(NewFileText(operation.path, SplitLines(operation.content)), NEW_FILE_BYTE_LIMIT))
  }

  /** Reading this text as whole-line hunks, in any way that prints it, and applying them to the base lines gives the
      desired lines. */
  ghost predicate ReadsAs(content: Text, path: Text, baseLines: seq<Text>, desiredLines: seq<Text>) {
    forall read :: WholeLines(read) && EditText(path, read) == content ==> Apply(baseLines, read, 0, 0) == Some(desiredLines)
  }

  /** Every reading of the text fails to give the desired lines. */
  ghost predicate NeverReadsAs(content: Text, path: Text, baseLines: seq<Text>, desiredLines: seq<Text>) {
    forall read :: WholeLines(read) && EditText(path, read) == content ==> Apply(baseLines, read, 0, 0) != Some(desiredLines)
  }

  lemma Readings(e: Edit, hunks: seq<Hunk>, path: Text)
    requires e.Valid() && HunksFor(e.baseLines, e.desiredLines, e.merged, hunks)
    ensures WholeLines(hunks)
    ensures if Aligned(e) then ReadsAs(EditText(path, hunks), path, e.baseLines, e.desiredLines)
            else NeverReadsAs(EditText(path, hunks), path, e.baseLines, e.desiredLines)
  {
    hide Aligned, Apply, WholeLines, EditText, HunksFor;
    EmittedWhole(e, hunks);
    forall read | WholeLines(read) && EditText(path, read) == EditText(path, hunks)
      ensures Apply(e.baseLines, read, 0, 0) == Some(e.desiredLines) <==> Aligned(e)
    {
      PatchTextDecides(e, hunks, read, path);
    }
  }

  /** What a reader of patches makes of the printed edit. */
  lemma EditReads(e: Edit, hunks: seq<Hunk>, path: Text)
    requires e.Valid() && HunksFor(e.baseLines, e.desiredLines, e.merged, hunks) && NEWLINE !in path
    ensures ReadPatch(EditText(path, hunks)).Some?
    ensures HeadLines(EditText(path, hunks)) == EditHead(path)
    ensures var p := ReadPatch(EditText(path, hunks)).value;
            && p.source == Some(path) && p.target == path
            && (Applied(p, e.baseLines) == Some(e.desiredLines) <==> Aligned(e))
  {
    hide Aligned, Apply, WholeLines, WholeHunk, EditText, ReadPatch, HeadLines, EditHead, NewFileHead;
    EmittedWhole(e, hunks);
    RecoversIffAligned(e, hunks);
    forall k | 0 <= k < |hunks|
      ensures hunks[k].oldCount > 0 && |hunks[k].Old()| == hunks[k].oldCount && |hunks[k].New()| == hunks[k].newCount
    {
      EmptyRangeIff(e, hunks, k);
      assert HunkFor(e.baseLines, e.desiredLines, e.merged[k], hunks[k]);
    }
    EditRead(path, hunks);
    PlainsApply(e.baseLines, hunks, 0, 0);
  }

  lemma Printed(base: Text, replacements: seq<Replacement>, hunks: seq<Hunk>, path: Text)
    requires ResolvedOf(base, replacements).Ok?
    requires AppliedText(base, replacements).Ok?
    requires Edits(base, AppliedText(base, replacements).value, ResolvedOf(base, replacements).value)
    requires var desired := AppliedText(base, replacements).value;
             HunksFor(SplitLines(base), SplitLines(desired), Merge(WindowsOf(base, desired, ResolvedOf(base, replacements).value)), hunks)
    ensures WholeLines(hunks)
    ensures var (baseLines, desiredLines) := (SplitLines(base), SplitLines(AppliedText(base, replacements).value));
            && (Apply(baseLines, hunks, 0, 0) == Some(desiredLines) <==> Aligned(EditOf(base, replacements)))
            && (if Aligned(EditOf(base, replacements)) then ReadsAs(EditText(path, hunks), path, baseLines, desiredLines)
                else NeverReadsAs(EditText(path, hunks), path, baseLines, desiredLines))
            && (NEWLINE !in path ==>
                  && ReadPatch(EditText(path, hunks)).Some?
                  && HeadLines(EditText(path, hunks)) == EditHead(path)
                  && var p := ReadPatch(EditText(path, hunks)).value;
                     && p.source == Some(path) && p.target == path
                     && (Applied(p, baseLines) == Some(desiredLines) <==> Aligned(EditOf(base, replacements))))
  {
    hide EditText, ReadPatch, HeadLines, EditHead, NewFileHead, Apply, SplitLines, Aligned, WholeLines, ReadsAs, NeverReadsAs,
      HunksFor;
    var e := EditOf(base, replacements);
    RecoversIffAligned(e, hunks);
    Readings(e, hunks, path);
    if NEWLINE !in path { EditReads(e, hunks, path); }
  }

  /** The text is read as a patch for this path exactly when the path has no newline. Then it starts with these lines and is one
      of this source, and applied to the base lines it gives the desired lines exactly when `exact` holds. */
  predicate LeadsTo(content: Text, head: seq<Text>, source: Option<Text>, path: Text, baseLines: seq<Text>,
                    desiredLines: seq<Text>, exact: bool)
  {
    var read := ReadPatch(content);
    && (read.Some? && read.value.target == path <==> NEWLINE !in path)
    && (NEWLINE !in path ==>
          HeadLines(content) == head && read.value.source == source
          && (Applied(read.value, baseLines) == Some(desiredLines) <==> exact))
  }

  /** createEdenPatch. The text that is printed, read as a patch, is for the operation's file exactly when its path has no
      newline; then it leads from the base lines to the desired lines exactly when the edit is aligned, and for a new file it
      always makes the content. */
  method CreateEdenPatch(operation: Operation, base: Text, sha: Text -> Digest)
    returns (r: Result<Observation, PatchError>, hunks: seq<Hunk>)
    ensures operation.AnchorEdit? ==> (r.Ok? <==> Approved(operation, base, sha))
    ensures operation.AnchorEdit? && r.Ok? ==>
              && AppliedText(base, operation.replacements).Ok?
              && r.value == CompletePatch(EditText(operation.path, hunks), REVIEW_BYTE_LIMIT)
              && (Apply(SplitLines(base), hunks, 0, 0) == Some(SplitLines(AppliedText(base, operation.replacements).value))
                  <==> Aligned(EditOf(base, operation.replacements)))
              && WholeLines(hunks)
              && var (content, desired) := (EditText(operation.path, hunks), AppliedText(base, operation.replacements).value);
                 if Aligned(EditOf(base, operation.replacements))
                 then ReadsAs(content, operation.path, SplitLines(base), SplitLines(desired))
                 else NeverReadsAs(content, operation.path, SplitLines(base), SplitLines(desired))
    ensures operation.AnchorEdit? && r.Ok? ==>
              if r.value.Blocked? then ByteLength(EditText(operation.path, hunks)) > 24_576
              else
                r.value.byteLength == ByteLength(r.value.content) <= 24_576
                && LeadsTo(r.value.content, EditHead(operation.path), Some(operation.path), operation.path, SplitLines(base),
                           SplitLines(AppliedText(base, operation.replacements).value),
                           Aligned(EditOf(base, operation.replacements)))
    ensures operation.WriteFile? ==>
              (r.Ok? <==> base == [] && ByteLength(operation.content) == operation.byteLength && sha(operation.content) == operation.digest)
    ensures operation.WriteFile? && r.Ok? ==>
              if r.value.Blocked? then ByteLength(NewFileText(operation.path, SplitLines(operation.content))) > 57_344
              else
                r.value.byteLength == ByteLength(r.value.content) <= 57_344
                && LeadsTo(r.value.content,
                           NewFileHead(operation.path), None, operation.path, [], SplitLines(operation.content), true)
    ensures operation.AnchorEdit? && r.Err? ==> r.error == EditRejection(operation, base, sha)
    ensures operation.WriteFile? ==> r == NewFilePatch(operation, base, sha)
    ensures operation.RunCommand? ==> r == Err(ActionInvalid)
  {
    hide EditText, NewFileText, ReadPatch, HeadLines, EditHead, NewFileHead, Apply, SplitLines, Aligned, WholeLines, ReadsAs,
      NeverReadsAs, EditOf, HunksFor, WindowsOf, Merge, Applied;
    hunks := [];
    match operation
    case RunCommand =>
      r := Err(ActionInvalid);
    case WriteFile(_, _, _, _) =>
      r := NewFilePatch(operation, base, sha);
      TargetIsOneLine(NewFileText(operation.path, SplitLines(operation.content)));
      if NEWLINE !in operation.path { NewFileRead(operation.path, operation.content); }
    case AnchorEdit(path, baseByteLength, baseDigest, desiredByteLength, desiredDigest, replacements) =>
      if ByteLength(base) != baseByteLength || sha(base) != baseDigest {
        return Err(Stale), [];
      }
      var applied := ApplyAnchors(base, replacements);
      if applied.Err? {
        return Err(if applied.error.BaseStale? then Stale else AnchorsOverlap), [];
      }
      var desired := applied.value;
      if ByteLength(desired) != desiredByteLength || sha(desired) != desiredDigest {
        return Err(DesiredMismatch), [];
      }
      var resolved := ResolveAnchors(base, replacements);
      ResolvedEdits(base, replacements);
      hunks := FindHunks(base, desired, resolved.value);
      Printed(base, replacements, hunks, path);
      TargetIsOneLine(EditText(path, hunks));
      r := Ok(CompletePatch(EditText(path, hunks), REVIEW_BYTE_LIMIT));
  }
}
