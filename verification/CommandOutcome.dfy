/** What is recorded of a command whose process ended, and when all of it can be (run-command.ts, reducer.ts, schema.ts). */
module CommandOutcome {
  import opened Results
  import opened Kernel
  import opened KernelFacts
  import opened RuntimeJournal
  import opened Utf16
  import opened Utf8
  import Chunked = OutputChunks

  function ReportOf(c: Chunked.Captured, startedAt: int, completedAt: int, visibleBytes: nat): CommandReport {
    CommandReport(c.exitCode.Some?, c.exitCode, startedAt, completedAt, c.stdoutBytes, c.stderrBytes, c.cleanedUp, visibleBytes)
  }

  /** The run can still pay for this much output. */
  predicate Affordable(s: State, bytes: nat, visibleBytes: nat)
    requires s.Run?
  {
    s.budget.Some? ==>
      var (grant, usage) := (s.budget.value.grant, s.budget.value.usage);
      && usage.commandOutputBytes + bytes <= grant.commandOutputBytes
      && usage.toolContentBytes + visibleBytes <= grant.toolContentBytes
  }

  /** Both streams decode and on one of them cut pairs and dropped marks do not balance. */
  predicate Miscounted(p: Chunked.Process) {
    p.ProcessExited? && Decode(p.stdout).Some? && Decode(p.stderr).Some?
    && !(Chunked.Balanced(p.stdout) && Chunked.Balanced(p.stderr))
  }

  lemma CapturedCounts(p: Chunked.Process)
    ensures var c := Chunked.Capture(p);
            Miscounted(p)
            <==> !(JoinedBytes(Chunked.Seen(Chunked.Pieces(c.stdout))) == c.stdoutBytes
                   && JoinedBytes(Chunked.Seen(Chunked.Pieces(c.stderr))) == c.stderrBytes)
  {
    if p.ProcessExited? && Decode(p.stdout).Some? && Decode(p.stderr).Some? {
      Chunked.CountsAgreeIff(p.stdout);
      Chunked.CountsAgreeIff(p.stderr);
    }
  }

  /** A command whose whole output was observed, with whatever else was committed in between, can report its
      completion exactly when its bytes are not miscounted, the clock did not run backwards and, unless it failed to
      clean up, the run can pay. */
  lemma CompletionLegalIff(s: State, effect: Effect, p: Chunked.Process, startedAt: int, completedAt: int, visibleBytes: nat)
    requires Staged(s) && Commanding(s, effect)
    requires var c := Chunked.Capture(p);
             && s.output.value.stdout == Chunked.Seen(Chunked.Pieces(c.stdout))
             && s.output.value.stderr == Chunked.Seen(Chunked.Pieces(c.stderr))
    ensures var c := Chunked.Capture(p);
            Reduce(s, CommandCompleted(effect, ReportOf(c, startedAt, completedAt, visibleBytes))).Some?
            <==> && !Miscounted(p) && startedAt <= completedAt
                 && (c.cleanedUp ==> Affordable(s, c.stdoutBytes + c.stderrBytes, visibleBytes))
  {
    hide Chunked.Seen, Chunked.Pieces, Chunked.Capture, Miscounted, JoinedBytes;
    CapturedCounts(p);
  }

  /** What the kernel and the record schema let happen; whether the journal has room is left aside. */
  function Recorded(s: State, e: Event): Option<State> {
    if Bounded(e) then Reduce(s, e) else None
  }

  function ChunksOf(o: Output, stream: Stream): seq<Text> {
    if stream.Stdout? then o.stdout else o.stderr
  }

  function WithChunks(o: Output, stream: Stream, chunks: seq<Text>): Output {
    if stream.Stdout? then o.(stdout := chunks) else o.(stderr := chunks)
  }

  /** Observing the pieces of one stream, one after the other. */
  function Observing(s: State, effect: Effect, stream: Stream, pieces: seq<Text>): Option<State> {
    if pieces == [] then Some(s)
    else
      var front, last := pieces[..|pieces| - 1], pieces[|pieces| - 1];
      var before := Observing(s, effect, stream, front);
      if before.None? then None
      else Recorded(before.value, CommandOutput(effect, stream, |front|, ByteLength(last), Encode(last)))
  }

  lemma SeenGrows(front: seq<Text>, last: Text)
    ensures Chunked.Seen(front + [last]) == Chunked.Seen(front) + [WithoutMark(Scalar(last))]
    ensures JoinedBytes(Chunked.Seen(front)) <= JoinedBytes(Chunked.Seen(front + [last]))
  {
    hide ByteLength, Scalar, Chunked.TotalBytes, Chunked.Marks, Joined;
    Chunked.SeenBytes(front);
    Chunked.SeenBytes(front + [last]);
    TotalsGrow(front, last);
    Chunked.SeenPiece(last);
  }

  lemma {:induction false} TotalsGrow(front: seq<Text>, last: Text)
    ensures Chunked.TotalBytes(front + [last]) == Chunked.TotalBytes(front) + ByteLength(last)
    ensures Chunked.Marks(front + [last]) == Chunked.Marks(front) + if StartsWithMark(last) then 1 else 0
  {
    if front == [] {
      assert front + [last] == [last] && [last][1..] == [];
    } else {
      assert (front + [last])[1..] == front[1..] + [last];
      TotalsGrow(front[1..], last);
    }
  }

  lemma ObserveOne(s: State, effect: Effect, stream: Stream, front: seq<Text>, last: Text)
    requires Commanding(s, effect) && ChunksOf(s.output.value, stream) == Chunked.Seen(front)
    ensures var next := Chunked.Seen(front + [last]);
            Reduce(s, CommandOutput(effect, stream, |front|, ByteLength(last), Encode(last)))
            == if JoinedBytes(next) > STREAM_BYTES then None
               else Some(s.(output := Some(WithChunks(s.output.value, stream, next)), revision := s.revision + 1))
  {
    hide JoinedBytes, Decode, Encode, ByteLength;
    SeenGrows(front, last);
    DecodeEncode(last);
    assert |Encode(last)| == ByteLength(last);
  }

  /** The records of one stream's text. */
  function OutputOf(effect: Effect, stream: Stream, content: Text): seq<Event> {
    seq(|Chunked.Pieces(content)|, k requires 0 <= k < |Chunked.Pieces(content)| =>
          CommandOutput(effect, stream, k, ByteLength(Chunked.Pieces(content)[k]), Encode(Chunked.Pieces(content)[k])))
  }

  lemma OutputStep(effect: Effect, stream: Stream, content: Text, k: nat, acts: seq<Event>)
    requires k < |Chunked.Pieces(content)|
    requires var piece := Chunked.Pieces(content)[k];
             acts <= [CommandOutput(effect, stream, k, ByteLength(piece), Encode(piece))]
    ensures var all := OutputOf(effect, stream, content);
            && |all| == |Chunked.Pieces(content)|
            && (if acts == [] then all[..k] + acts < all else all[..k] + acts == all[..k + 1] && all[..k] + acts <= all)
  {
    hide Chunked.Pieces, ByteLength, Encode;
  }

  lemma OutputAll(effect: Effect, stream: Stream, content: Text)
    ensures |OutputOf(effect, stream, content)| == |Chunked.Pieces(content)|
    ensures OutputOf(effect, stream, content)[..0] == []
    ensures OutputOf(effect, stream, content)[..|Chunked.Pieces(content)|] == OutputOf(effect, stream, content)
  {
  }

  /** What `chunks` makes: none empty, none over its limit. */
  predicate Sized(pieces: seq<Text>) {
    forall k :: 0 <= k < |pieces| ==> pieces[k] != [] && ByteLength(pieces[k]) <= Chunked.CHUNK_BYTES
  }

  lemma OutputBounded(effect: Effect, stream: Stream, index: nat, piece: Text)
    requires piece != [] && ByteLength(piece) <= Chunked.CHUNK_BYTES
    ensures Bounded(CommandOutput(effect, stream, index, ByteLength(piece), Encode(piece))) <==> index <= 7
  {
    assert |Encode(piece)| == ByteLength(piece) >= 1;
  }

  /** The pieces of a stream are all observed exactly when they are at most eight, the schema's bound on their index,
      and fit the kernel's stream limit together. */
  lemma {:induction false} ObservedIff(s: State, effect: Effect, stream: Stream, pieces: seq<Text>)
    requires Commanding(s, effect) && ChunksOf(s.output.value, stream) == [] && Sized(pieces)
    ensures var seen := Chunked.Seen(pieces);
            Observing(s, effect, stream, pieces)
            == if |pieces| > 8 || JoinedBytes(seen) > STREAM_BYTES then None
               else Some(s.(output := Some(WithChunks(s.output.value, stream, seen)), revision := s.revision + |pieces|))
  {
    hide Reduce, JoinedBytes, Bounded, ByteLength, Encode, Scalar;
    if pieces == [] {
      NoBytes();
      assert Chunked.Seen(pieces) == [];
    } else {
      var front, last := pieces[..|pieces| - 1], pieces[|pieces| - 1];
      ObservedIff(s, effect, stream, front);
      assert front + [last] == pieces;
      SeenGrows(front, last);
      OutputBounded(effect, stream, |front|, last);
      if Observing(s, effect, stream, front).Some? {
        ObserveOne(Observing(s, effect, stream, front).value, effect, stream, front, last);
      }
    }
  }

  lemma NoBytes()
    ensures JoinedBytes([]) == 0
  {
  }

  /** The native process keeps either stream within the limit. */
  predicate Produced(p: Chunked.Process) {
    p.ProcessExited? ==> |p.stdout| <= 65_536 && |p.stderr| <= 65_536
  }

  /** The process exited and both streams are text, so that its output is kept. */
  predicate Kept(p: Chunked.Process) {
    p.ProcessExited? && Decode(p.stdout).Some? && Decode(p.stderr).Some?
  }

  function StdoutText(p: Chunked.Process): Text {
    if Kept(p) then Decode(p.stdout).value else []
  }

  function StderrText(p: Chunked.Process): Text {
    if Kept(p) then Decode(p.stderr).value else []
  }

  /** What a report says of a process. */
  predicate Accounts(p: Chunked.Process, r: CommandReport) {
    && r.exited == Kept(p) && r.exitCode == (if Kept(p) then Some(p.exitCode) else None)
    && r.stdoutBytes == (if Kept(p) then |p.stdout| else 0) && r.stderrBytes == (if Kept(p) then |p.stderr| else 0)
    && r.cleanedUp == (p.ProcessExited? || p.cleanedUp)
  }

  lemma CaptureTells(p: Chunked.Process, startedAt: int, completedAt: int, visibleBytes: nat)
    ensures Chunked.Capture(p).stdout == StdoutText(p) && Chunked.Capture(p).stderr == StderrText(p)
    ensures var r := ReportOf(Chunked.Capture(p), startedAt, completedAt, visibleBytes);
            Accounts(p, r) && r.startedAt == startedAt && r.completedAt == completedAt && r.visibleBytes == visibleBytes
  {
  }

  /** The whole outcome of a process can be recorded: no stream makes a ninth chunk, its bytes are not miscounted, the exit code
      is one byte, the clock did not run backwards and, unless the process failed to clean up, the run can pay. */
  predicate Keepable(s: State, p: Chunked.Process, startedAt: int, completedAt: int, visibleBytes: nat)
    requires s.Run?
  {
    && |Chunked.Pieces(StdoutText(p))| <= 8 && |Chunked.Pieces(StderrText(p))| <= 8
    && !Miscounted(p) && (Kept(p) ==> p.exitCode <= 255) && startedAt <= completedAt
    && (p.ProcessExited? || p.cleanedUp ==> Affordable(s, if Kept(p) then |p.stdout| + |p.stderr| else 0, visibleBytes))
  }

  /** At most eight chunks a stream. */
  predicate FewChunks(c: Chunked.Captured) {
    |Chunked.Pieces(c.stdout)| <= 8 && |Chunked.Pieces(c.stderr)| <= 8
  }

  /** All of a command's output and its completion, from the start of the command. */
  function Outcome(s: State, effect: Effect, p: Chunked.Process, startedAt: int, completedAt: int, visibleBytes: nat): Option<State> {
    var c := Chunked.Capture(p);
    var one := Observing(s, effect, Stdout, Chunked.Pieces(c.stdout));
    var two := if one.None? then None else Observing(one.value, effect, Stderr, Chunked.Pieces(c.stderr));
    if two.None? then None
    else Recorded(two.value, CommandCompleted(effect, ReportOf(c, startedAt, completedAt, visibleBytes)))
  }

  /** Kernel and record schema accept all output and the completion exactly when the outcome is keepable. */
  lemma OutcomeRecordedIff(s: State, effect: Effect, p: Chunked.Process, startedAt: int, completedAt: int, visibleBytes: nat)
    requires Staged(s) && Commanding(s, effect) && s.output.value.stdout == [] && s.output.value.stderr == [] && Produced(p)
    ensures Outcome(s, effect, p, startedAt, completedAt, visibleBytes).Some?
            <==> Keepable(s, p, startedAt, completedAt, visibleBytes)
  {
    hide Reduce, JoinedBytes, Chunked.Seen, Chunked.Pieces, Observing, Miscounted;
    var c := Chunked.Capture(p);
    CapturedCounts(p);
    Chunked.PiecesFit(c.stdout);
    Chunked.PiecesFit(c.stderr);
    ObservedIff(s, effect, Stdout, Chunked.Pieces(c.stdout));
    var one := Observing(s, effect, Stdout, Chunked.Pieces(c.stdout));
    if one.Some? {
      ObservedIff(one.value, effect, Stderr, Chunked.Pieces(c.stderr));
      var two := Observing(one.value, effect, Stderr, Chunked.Pieces(c.stderr));
      if two.Some? { CompletionLegalIff(two.value, effect, p, startedAt, completedAt, visibleBytes); }
    }
  }

  /** 65,522 bytes on either stream never make a ninth chunk. */
  lemma ShortOutputFits(p: Chunked.Process)
    requires p.ProcessExited? ==> |p.stdout| <= 65_522 && |p.stderr| <= 65_522
    ensures FewChunks(Chunked.Capture(p))
  {
    hide Chunked.Pieces;
    var c := Chunked.Capture(p);
    if p.ProcessExited? && Decode(p.stdout).Some? && Decode(p.stderr).Some? {
      DecodedBytes(p.stdout);
      DecodedBytes(p.stderr);
    }
    Chunked.EightPieces(c.stdout);
    Chunked.EightPieces(c.stderr);
  }

  /** A command that printed 21,841 to 21,845 three-byte characters and nothing else: its output is balanced, and its outcome
      is lost whatever the run can pay. */
  lemma NinthChunkLosesOutcome(s: State, effect: Effect, t: Text, exitCode: nat, startedAt: int, completedAt: int, visibleBytes: nat)
    requires Staged(s) && Commanding(s, effect) && s.output.value.stdout == [] && s.output.value.stderr == []
    requires Chunked.Wide(t) && 21_841 <= |t| <= 21_845 && forall i :: 0 <= i < |t| ==> t[i] != MARK
    ensures var p := Chunked.ProcessExited(exitCode, Encode(t), []);
            Produced(p) && !Miscounted(p) && Outcome(s, effect, p, startedAt, completedAt, visibleBytes).None?
  {
    hide Chunked.Pieces, Chunked.Marks, Chunked.SplitPairs, Reduce, Observing, Chunked.Wide, Encode, Outcome;
    var p := Chunked.ProcessExited(exitCode, Encode(t), []);
    Chunked.NinthPiece(t);
    NothingPrinted();
    OutcomeRecordedIff(s, effect, p, startedAt, completedAt, visibleBytes);
  }

  lemma NothingPrinted()
    ensures Decode([]) == Some([]) && Chunked.Balanced([])
  {
  }
}
