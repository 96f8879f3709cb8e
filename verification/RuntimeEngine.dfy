/** The event-sourced runtime over its journal file, the command process and the model provider
    (runtime.ts, safe-actuation-host.ts, run-command.ts, fake-tool-host.ts). */
module RuntimeEngine {
  import opened Results
  import opened Kernel
  import opened KernelFacts
  import opened RuntimeJournal
  import opened Utf16
  import opened Utf8
  import opened OutputChunks
  import opened CommandOutcome
  import opened EngineFacts

  /** replayRecords, record by record. */
  method ReplayRecords(records: seq<Record>) returns (state: Option<State>)
    ensures state == Replay(records)
  {
    var k, current := 0, Idle;
    assert records[..0] == [];
    while k < |records|
      invariant 0 <= k <= |records| && Replay(records[..k]) == Some(current)
    {
      assert records[..k + 1][..k] == records[..k];
      var next := Reduce(current, records[k].event);
      if next.None? {
        ReplayStops(records, k + 1);
        return None;
      }
      current, k := next.value, k + 1;
    }
    assert records[..k] == records;
    state := Some(current);
  }

  /** Once replaying fails it fails for every longer journal. */
  lemma {:induction false} ReplayStops(records: seq<Record>, k: nat)
    requires k <= |records| && Replay(records[..k]).None?
    ensures Replay(records).None?
    decreases |records|
  {
    if k < |records| {
      assert records[..|records| - 1][..k] == records[..k];
      ReplayStops(records[..|records| - 1], k);
    } else {
      assert records[..k] == records;
    }
  }

  class RuntimeEngine {
    // the journal file and FileJournal's copy of it
    var file: seq<Record>
    /** A crash in the middle of a write left a partial line at the end of the file. */
    var torn: bool
    var records: seq<Record>
    const format: Format
    // RuntimeEngine
    var currentState: State
    var sequence: nat
    var journalBytes: nat
    var startedAtMs: Option<int>
    var lastEventId: Option<Id>
    // the world: native command runs, provider calls and answers, attempt receipts
    var runs: seq<NativeRun>
    var calls: map<Id, nat>
    var answers: map<Id, Observation>
    var receipts: map<Id, Observation>

    constructor (format: Format)
      ensures Valid() && Safe() && file == [] && !torn && this.format == format
    {
      file, torn, records, currentState, sequence, journalBytes := [], false, [], Idle, 0, 0;
      startedAtMs, lastEventId := None, None;
      runs, calls, answers, receipts := [], map[], map[], map[];
      this.format := format;
    }

    /** The file is one this engine's commits wrote; the engine lags it by at most a record whose write was
        durable but reported as failed. */
    ghost predicate Valid()
      reads this
    {
      && Stored() && records <= file && |file| <= |records| + 1
      && Current()
    }

    ghost predicate Stored()
      reads this
    {
      StoredAs(file, format)
    }

    ghost predicate Current()
      reads this
    {
      && Live(currentState, records) && Silent(currentState) && sequence == |records| && journalBytes == Bytes(records)
      && startedAtMs == (if records == [] then None else Some(records[0].at))
      && lastEventId == (if records == [] then None else Some(records[|records| - 1].eventId))
    }

    ghost predicate Spare(n: nat)
      reads this
    {
      SpareAs(currentState, records, file, torn, format, n)
    }

    ghost predicate Safe()
      reads this
    {
      SafeAs(file, runs, calls, answers, receipts)
    }

    // ----- opening -----

    /** Every journal the runtime wrote replays within its grant, so only a torn record or the plain ceiling can
        refuse it. */
    method Open() returns (error: Option<OpenError>)
      requires Stored()
      modifies this`records, this`currentState, this`sequence, this`journalBytes, this`startedAtMs, this`lastEventId
      ensures error == if torn then Some(BadRecords) else if Reopens(file) then None else Some(PlainCeiling)
      ensures error.None? ==> Valid() && records == file
      ensures error.Some? ==> records == old(records) && currentState == old(currentState) && sequence == old(sequence)
                              && journalBytes == old(journalBytes) && startedAtMs == old(startedAtMs)
                              && lastEventId == old(lastEventId)
    {
      hide Reduce, Fits, Silent;
      if torn || !ValidSequence(file) || !Fits(file, format) { return Some(BadRecords); }
      var replayed := ReplayRecords(file);
      if replayed.None? { return Some(IllegalTransition); }
      var state := WithDerived(replayed.value, DerivedOf(file));
      if state.None? { return Some(GrantExceeded); }
      if Bytes(file) > PLAIN_JOURNAL_BYTES && !Budgeted(state.value) { return Some(PlainCeiling); }
      LiveSilent(state.value, file);
      error, records, currentState, sequence, journalBytes := None, file, state.value, |file|, Bytes(file);
      startedAtMs := if file == [] then None else Some(file[0].at);
      lastEventId := if file == [] then None else Some(file[|file| - 1].eventId);
    }

    // ----- committing -----

    /** FileJournal.append: refused, lost, torn, durable, or durable without saying so. */
    method Append(record: Record, reliable: bool) returns (ok: bool)
      requires Stored() && records <= file && |file| <= |records| + 1
      requires records == file ==> Orderly(file + [record])
      modifies this`file, this`torn, this`records
      ensures Stored() && records <= file && |file| <= |records| + 1
      ensures file == old(file) || (old(records) == old(file) && file == old(file) + [record])
      ensures ok ==> old(records) == old(file) && file == old(file) + [record] && records == file
      ensures !ok ==> records == old(records)
      ensures old(torn) || reliable ==> torn == old(torn)
      ensures torn ==> !ok && file == old(file)
      ensures reliable && !ok ==> file == old(file)
      ensures ok ==> Acceptable(old(records), record, format) && Bounded(record.event)
      ensures reliable ==> (ok <==> old(records) == old(file) && !torn && Acceptable(old(records), record, format))
    {
      if !Acceptable(records, record, format) || file != records || torn { return false; }
      var durable, said := *, *;
      if !reliable && !durable {
        torn := *;
        return false;
      }
      StoredAppend(file, record, format);
      file := file + [record];
      if !reliable && !said { return false; }
      records := records + [record];
      ok := true;
    }

    /** What a commit would write and the state it would lead to, whose derived usage is measured, not reduced. `reliable`
        asks for the case of a new id, a record of ordinary size and a clock within the grant. */
    method Draft(event: Event, reliable: bool) returns (record: Record, next: Option<State>)
      requires Valid() && (event.CommandOutput? ==> Marked(currentState))
      ensures next.Some? ==> record.event == event && record.sequence == sequence && Reduce(currentState, event).Some?
                             && With(next.value, ZERO) == With(Reduce(currentState, event).value, ZERO) && Silent(next.value)
      ensures next.Some? && records == file ==> Orderly(file + [record]) && Live(next.value, file + [record])
      ensures reliable ==> record.size <= RECORD_BYTES
      ensures reliable && Fillable(event) && Reduce(currentState, event).Some? ==> next.Some? && Acceptable(records, record, format)
    {
      hide Reduce, With, Fits, Sound, Live, WithDerived, WithinGrant, Orderly, Roomy, Acceptable, ValidSequence, Decodes,
        Bytes, Budgeted, Marked, Silent;
      var eventId: Id, at: int, size: nat := *, *, *;
      var transition := Reduce(currentState, event);
      if reliable { eventId, at, size := Above(records), Soon(at), if size > RECORD_BYTES then RECORD_BYTES else size; }
      record, next := Record(sequence, eventId, at, size, event), None;
      if transition.None? { return; }
      var derived := Derived(journalBytes + size, sequence + 1, Elapsed(if startedAtMs.None? then at else startedAtMs.value, at));
      next := WithDerived(transition.value, derived);
      if next.Some? { DraftLive(records, record, currentState, transition.value, derived, next.value); }
      if reliable && Fillable(event) { DraftAccepted(record, transition.value, derived); }
    }

    /** There is room for one more record, and the event decodes. */
    ghost predicate Fillable(event: Event)
      reads this
    {
      currentState.Run? && records == file && Roomy(currentState, records, format, 1) && Decodes(event, format)
    }

    /** A time not past the wall time granted. */
    function Soon(at: int): (t: int)
      reads this
      ensures var started := if startedAtMs.None? then t else startedAtMs.value;
              Budgeted(currentState) ==> Elapsed(started, t) <= currentState.budget.value.grant.wallTimeMs
    {
      if startedAtMs.Some? && Budgeted(currentState) && Elapsed(startedAtMs.value, at) > currentState.budget.value.grant.wallTimeMs
      then startedAtMs.value else at
    }

    lemma DraftAccepted(record: Record, transition: State, derived: Derived)
      requires Valid() && Fillable(record.event) && Reduce(currentState, record.event) == Some(transition)
      requires record.sequence == sequence && record.eventId == Above(records) && record.size <= RECORD_BYTES
      requires derived.journalBytes == journalBytes + record.size && derived.journalRecords == sequence + 1
      requires Budgeted(currentState) ==> derived.wallTimeMs <= currentState.budget.value.grant.wallTimeMs
      ensures WithDerived(transition, derived).Some? && Acceptable(records, record, format)
    {
      hide Reduce, Acceptable, Decodes, Roomy, WithDerived, ValidSequence, Bytes;
      StoredSequence(file, format);
      GrantKept(currentState, record.event);
      RoomForOne(currentState, records, record, transition, format, derived);
    }

    /** One exclusive commit; a legal event that its schema accepts is committed where there is room. */
    method Commit(event: Event, reliable: bool, ghost n: nat) returns (ok: bool)
      requires Valid() && Safe() && Honest(event, runs, answers) && (event.CommandOutput? ==> Marked(currentState))
      modifies this`file, this`torn, this`records, this`currentState, this`sequence, this`journalBytes, this`startedAtMs, this`lastEventId
      ensures Valid() && Safe()
      ensures file == old(file) || (old(records) == old(file) && Extended(event))
      ensures ok ==> old(records) == old(file) && Extended(event) && records == file && Moved(event) && Bounded(event)
      ensures !ok ==> currentState == old(currentState) && records == old(records)
      ensures reliable && !ok ==> file == old(file) && torn == old(torn)
      ensures reliable && old(Spare(n)) && (n > 0 || event.InputAccepted?) ==>
                && (Reduce(old(currentState), event).Some? && Decodes(event, format) ==> ok)
                && Spare(if !ok || event.InputAccepted? then n else n - 1)
    {
      hide Reduce, SafeAs, With, Fits, ValidSequence, Sound, Live, WithDerived, WithinGrant, Orderly, Bytes, Replay, WallTime,
        Honest, Roomy, Marked, Silent, Acceptable, Bounded, Decodes, Fillable, SpareAs;
      var record, next := Draft(event, reliable);
      SpareOne(n, event);
      if next.None? { return false; }
      ghost var before, state, full := file, currentState, records;
      ok := Append(record, reliable);
      if file != before { SafeAppend(before, record, runs, calls, answers, receipts); }
      if ok {
        Advance(record, next.value, before);
        if reliable && (n > 0 || event.InputAccepted?) { SpareAfter(state, full, event, record, n); }
      }
    }

    /** What the engine remembers of the record it appended. */
    method Advance(record: Record, next: State, ghost before: seq<Record>)
      requires records == before + [record] && Live(next, records) && Silent(next) && journalBytes == Bytes(before) && sequence == |before|
      requires startedAtMs == if before == [] then None else Some(before[0].at)
      modifies this`currentState, this`sequence, this`journalBytes, this`startedAtMs, this`lastEventId
      ensures Current() && currentState == next
    {
      hide Live, Bytes, WallTime, Replay, Silent;
      ReplayAppend(before, record);
      currentState, journalBytes, sequence := next, journalBytes + record.size, sequence + 1;
      lastEventId := Some(record.eventId);
      startedAtMs := Some(if startedAtMs.None? then record.at else startedAtMs.value);
    }

    lemma SpareAfter(state: State, before: seq<Record>, event: Event, record: Record, n: nat)
      requires Reduce(state, event).Some? && (n > 0 || event.InputAccepted?) && record.size <= RECORD_BYTES
      requires With(currentState, ZERO) == With(Reduce(state, event).value, ZERO)
      requires records == before + [record] && file == records
      ensures SpareAs(state, before, before, torn, format, n) ==> Spare(if event.InputAccepted? then n else n - 1)
    {
      hide Reduce, With;
      if SpareAs(state, before, before, torn, format, n) { SpareNext(state, before, event, record, currentState, format, n); }
    }

    lemma SpareOne(n: nat, event: Event)
      ensures Spare(n) && (n > 0 || (event.InputAccepted? && Reduce(currentState, event).Some?)) ==>
                Decodes(event, format) ==> Fillable(event)
      ensures Spare(n) ==> records == file && !torn
    {
      hide Reduce, Decodes;
      if Spare(n) && event.InputAccepted? && Reduce(currentState, event).Some? { AcceptedFew(currentState, event); }
    }

    twostate predicate Extended(event: Event)
      reads this
    {
      |file| == |old(file)| + 1 && file[..|old(file)|] == old(file) && file[|old(file)|].event == event
    }

    /** The state is the reducer's, but for the derived usage. */
    twostate predicate Moved(event: Event)
      reads this
    {
      Reduce(old(currentState), event).Some? && With(currentState, ZERO) == With(Reduce(old(currentState), event).value, ZERO)
    }

    // ----- the active-input lane, between any two steps of the driver -----

    method Interfere(reliable: bool, ghost n: nat)
      requires Valid() && Safe()
      modifies this`file, this`torn, this`records, this`currentState, this`sequence, this`journalBytes, this`startedAtMs, this`lastEventId
      ensures Valid() && Safe() && old(file) <= file && Meanwhile(old(file), old(currentState), file, currentState)
      ensures OnlySince(file, |old(file)|, FromInputLane)
      ensures old(records) == old(file) || (file == old(file) && records == old(records))
      ensures reliable && old(Spare(n)) ==> Spare(n)
    {
      hide Reduce, SafeAs, StoredAs, Live, Silent, With, SpareAs;
      var rounds: int, k := *, 0;
      while k < rounds
        invariant Valid() && Safe() && old(file) <= file && Meanwhile(old(file), old(currentState), file, currentState)
        invariant old(records) == old(file) || (file == old(file) && records == old(records))
        invariant reliable && old(Spare(n)) ==> Spare(n)
      {
        hide Meanwhile;
        var bytes: nat, commandId: Id, messageId: Id, mode: Mode, step: int, order: nat := *, *, *, *, *, *;
        var e := InputAccepted(bytes, commandId, messageId, mode, step, order);
        ghost var later, next := file, currentState;
        var ok := Commit(e, reliable, n);
        OneMore(old(file), old(currentState), later, next, e, file, currentState);
        k := k + 1;
      }
    }

    // ----- dispatch -----

    method MarkDispatchStarted(reliable: bool, ghost n: nat) returns (ok: bool)
      requires Valid() && Safe()
      modifies this`file, this`torn, this`records, this`currentState, this`sequence, this`journalBytes, this`startedAtMs, this`lastEventId
      ensures Valid() && Safe() && old(file) <= file
      ensures file != old(file) ==> FlightOf(old(currentState)).Some? && Extended(DispatchStarted(FlightOf(old(currentState)).value))
      ensures ok ==> Dispatchable(currentState) && Marked(currentState) && FlightOf(currentState) == FlightOf(old(currentState))
      ensures ok && !Marked(old(currentState)) ==> Extended(DispatchStarted(FlightOf(currentState).value)) && records == file
                                                   && JustMarked(old(currentState), currentState)
      ensures Marked(old(currentState)) ==> file == old(file) && (ok <==> Dispatchable(old(currentState)))
      ensures reliable && old(Spare(n)) && n > 0 && Permissive(format) ==>
                (Dispatchable(old(currentState)) && !Marked(old(currentState)) ==> ok && Spare(n - 1))
    {
      hide Reduce, SafeAs, StoredAs, Live, Silent, With, SpareAs, Keeps, Permissive, Decodes;
      if !Dispatchable(currentState) { return false; }
      if currentState.dispatched { return true; }
      ghost var before := currentState;
      var e := DispatchStarted(currentState.inFlight.value);
      SchemaTakes(format, e);
      ok := Commit(e, reliable, n);
      DispatchMoves(before, currentState);
    }

    // ----- run_command.execute -----

    /** One chunk; it is refused only for its index or for the bytes of its stream. */
    method ObserveChunk(effect: Effect, stream: Stream, index: nat, piece: Text, reliable: bool, ghost n: nat, ghost start: State,
                        ghost o: Output, ghost front: seq<Text>) returns (ok: bool)
      requires Valid() && Safe() && index == |front| && n > 0 && piece != [] && ByteLength(piece) <= CHUNK_BYTES
      requires Commanding(start, effect) && o.actionId == effect.actionId
      requires Carrying(start, currentState, WithChunks(o, stream, Seen(front)))
      modifies this`file, this`torn, this`records, this`currentState, this`sequence, this`journalBytes, this`startedAtMs, this`lastEventId
      ensures Valid() && Safe() && old(file) <= file
      ensures Since(file, |old(file)|) <= [CommandOutput(effect, stream, index, ByteLength(piece), Encode(piece))]
      ensures ok ==> index <= 7 && JoinedBytes(Seen(front + [piece])) <= STREAM_BYTES
                     && Since(file, |old(file)|) == [CommandOutput(effect, stream, index, ByteLength(piece), Encode(piece))]
                     && Carrying(start, currentState, WithChunks(o, stream, Seen(front + [piece])))
      ensures reliable && old(Spare(n)) && Permissive(format) ==>
                && Spare(if ok then n - 1 else n)
                && (!ok ==> (index > 7 || JoinedBytes(Seen(front + [piece])) > STREAM_BYTES)
                            && file == old(file) && currentState == old(currentState))
    {
      hide Reduce, SafeAs, StoredAs, Live, Silent, With, Since, Carrying, Seen, JoinedBytes, ByteLength, Encode, Bounded,
        SpareAs, Meanwhile, Permissive, Decodes;
      var e := CommandOutput(effect, stream, index, ByteLength(piece), Encode(piece));
      OutputBounded(effect, stream, index, piece);
      ghost var before, state := file, currentState;
      ghost var seen := WithChunks(o, stream, Seen(front + [piece]));
      SinceNow(file);
      assert Marked(currentState) && Keeps(start, currentState) by { CarryingMarked(start, currentState, WithChunks(o, stream, Seen(front))); }
      SchemaTakes(format, e);
      ok := Commit(e, reliable, n);
      CarryingOne(start, state, effect, o, stream, front, piece, currentState);
      if file != before { SinceOne(before, |before|, file, e); }
      if !ok { return; }
      ghost var later, next := file, currentState;
      Interfere(reliable, n - 1);
      SinceInputs(later, |before|, file);
      CarryingMarked(start, next, seen);
      CarryingOn(start, next, seen, later, file, currentState);
    }

    /** The chunks of one stream are committed in order; a refused commit ends the execution. */
    method ObserveStream(effect: Effect, stream: Stream, content: Text, reliable: bool, ghost n: nat, ghost start: State,
                         ghost o: Output) returns (ok: bool)
      requires Valid() && Safe() && n >= 9
      requires Commanding(start, effect) && o.actionId == effect.actionId && ChunksOf(o, stream) == []
      requires Carrying(start, currentState, o)
      modifies this`file, this`torn, this`records, this`currentState, this`sequence, this`journalBytes, this`startedAtMs, this`lastEventId
      ensures Valid() && Safe() && old(file) <= file && Since(file, |old(file)|) <= OutputOf(effect, stream, content)
      ensures ok ==> Since(file, |old(file)|) == OutputOf(effect, stream, content)
                     && Carrying(start, currentState, WithChunks(o, stream, Seen(Pieces(content))))
      ensures reliable && old(Spare(n)) && Permissive(format) ==>
                && Spare(n - 8) && Keeps(start, currentState) && (ok <==> Storable(content))
                && (!ok ==> Since(file, |old(file)|) < OutputOf(effect, stream, content))
    {
      hide Reduce, SafeAs, StoredAs, Live, Silent, With, Meanwhile, Since, Carrying, Seen, JoinedBytes, ByteLength, Encode,
        Pieces, SpareAs, WithChunks, Keeps, Permissive, Commanding, OutputOf;
      SinceNow(file);
      PiecesFit(content);
      NothingYet(o, stream);
      OutputAll(effect, stream, content);
      var pieces := Chunks(content);
      assert pieces[..0] == [] && pieces[..|pieces|] == pieces;
      for k := 0 to |pieces|
        invariant Valid() && Safe() && old(file) <= file
        invariant Since(file, |old(file)|) == OutputOf(effect, stream, content)[..k]
        invariant k <= 8 && JoinedBytes(Seen(pieces[..k])) <= STREAM_BYTES
        invariant Carrying(start, currentState, WithChunks(o, stream, Seen(pieces[..k])))
        invariant reliable && old(Spare(n)) && Permissive(format) ==> Spare(n - k)
      {
        ghost var before := file;
        assert pieces[..k + 1] == pieces[..k] + [pieces[k]];
        CarryingMarked(start, currentState, WithChunks(o, stream, Seen(pieces[..k])));
        ok := ObserveChunk(effect, stream, k, pieces[k], reliable, n - k, start, o, pieces[..k]);
        SinceMore(before, |old(file)|, file);
        OutputStep(effect, stream, content, k, Since(file, |before|));
        if !ok {
          SinceNow(file);
          SeenPrefix(pieces, k + 1);
          SpareDown(n - k, n - 8);
          return;
        }
      }
      CarryingMarked(start, currentState, WithChunks(o, stream, Seen(pieces)));
      SpareDown(n - |pieces|, n - 8);
      ok := true;
    }

    /** Both streams, one after the other. */
    method ObserveOutput(effect: Effect, captured: Captured, reliable: bool, ghost start: State) returns (ok: bool)
      requires Valid() && Safe()
      requires Commanding(start, effect) && Carrying(start, currentState, Output(effect.actionId, [], []))
      modifies this`file, this`torn, this`records, this`currentState, this`sequence, this`journalBytes, this`startedAtMs, this`lastEventId
      ensures Valid() && Safe() && old(file) <= file
      ensures Since(file, |old(file)|) <= OutputOf(effect, Stdout, captured.stdout) + OutputOf(effect, Stderr, captured.stderr)
      ensures ok ==>
                && Since(file, |old(file)|) == OutputOf(effect, Stdout, captured.stdout) + OutputOf(effect, Stderr, captured.stderr)
                && Carrying(start, currentState,
                            Output(effect.actionId, Seen(Pieces(captured.stdout)), Seen(Pieces(captured.stderr))))
      ensures reliable && old(Spare(18)) && Permissive(format) ==>
                && Spare(2) && Keeps(start, currentState) && (ok <==> Storable(captured.stdout) && Storable(captured.stderr))
                && (!ok ==> Since(file, |old(file)|)
                            < OutputOf(effect, Stdout, captured.stdout) + OutputOf(effect, Stderr, captured.stderr))
    {
      hide Reduce, SafeAs, StoredAs, Live, Silent, With, Meanwhile, Since, Carrying, Seen, Pieces, SpareAs, Storable, OutputOf,
        Keeps, Permissive;
      ghost var o := Output(effect.actionId, [], []);
      ok := ObserveStream(effect, Stdout, captured.stdout, reliable, 18, start, o);
      ghost var first := OutputOf(effect, Stdout, captured.stdout);
      if !ok {
        SpareDown(10, 2);
        return;
      }
      ghost var before := file;
      ok := ObserveStream(effect, Stderr, captured.stderr, reliable, 10, start, o.(stdout := Seen(Pieces(captured.stdout))));
      SinceMore(before, |old(file)|, file);
    }

    lemma SpareDown(n: nat, m: nat)
      requires m <= n
      ensures Spare(n) ==> Spare(m)
    {
    }

    /** The last moment before the process starts. */
    method StartCommand(effect: Effect, reliable: bool) returns (ok: bool)
      requires Valid() && Safe()
      requires FlightOf(currentState) == Some(effect) && effect.RunCommand? && !Marked(currentState)
      modifies this`file, this`torn, this`records, this`currentState, this`sequence, this`journalBytes, this`startedAtMs, this`lastEventId
      ensures Valid() && Safe() && old(file) <= file && Since(file, |old(file)|) <= [DispatchStarted(effect)]
      ensures ok ==> Since(file, |old(file)|) == [DispatchStarted(effect)] && Commanding(old(currentState), effect)
                     && Carrying(old(currentState), currentState, Output(effect.actionId, [], []))
      ensures ok ==> forall r: NativeRun :: r.actionId == effect.actionId ==> SafeAs(file, runs + [r], calls, answers, receipts)
      ensures reliable && old(Spare(19)) && Permissive(format) ==> ok && Spare(18)
    {
      hide Reduce, SafeAs, StoredAs, Live, Silent, With, Meanwhile, Since, SpareAs, Keeps, Permissive, Commanding, Dispatchable;
      ghost var begun, start := file, currentState;
      Ready(effect);
      SinceNow(file);
      Interfere(reliable, 19);
      SinceInputs(begun, |begun|, file);
      MeanwhileFlight(begun, start, file, currentState);
      OnlookedKeeps(begun, start, file, currentState);
      Ready(effect);
      ghost var before, state := file, currentState;
      assert SafeAs(before, runs, calls, answers, receipts);
      ok := MarkDispatchStarted(reliable, 19);
      if file != before { SinceOne(before, |begun|, file, DispatchStarted(effect)); }
      if !ok { return; }
      KeepsOn(start, state, currentState);
      forall r: NativeRun | r.actionId == effect.actionId ensures SafeAs(file, runs + [r], calls, answers, receipts) {
        OneMoreRun(before, file, r, runs, calls, answers, receipts);
      }
    }

    lemma Ready(effect: Effect)
      requires Valid() && FlightOf(currentState) == Some(effect) && effect.RunCommand? && !Marked(currentState)
      ensures Commanding(currentState, effect) && Dispatchable(currentState)
      ensures currentState.Run? && currentState.output == Some(Output(effect.actionId, [], []))
    {
      hide Live;
      CommandReady(currentState, records, effect);
    }

    /** RunCommandService.execute inside the host's error boundary. The process starts only after its dispatch
        record is durable. */
    method ExecuteCommand(effect: Effect, reliable: bool) returns (observation: Event, ghost run: Option<NativeRun>)
      requires Valid() && Safe()
      requires FlightOf(currentState) == Some(effect) && effect.RunCommand? && !Marked(currentState)
      modifies this`file, this`torn, this`records, this`currentState, this`sequence, this`journalBytes, this`startedAtMs,
               this`lastEventId, this`runs
      ensures Valid() && Safe() && old(file) <= file
      ensures Since(file, |old(file)|) <= if run.Some? then Carried(effect, run.value.process) else [DispatchStarted(effect)]
      ensures runs == old(runs) + if run.Some? then [run.value] else []
      ensures run.Some? ==> run.value.actionId == effect.actionId
      ensures observation == RunBlocked
              || (run.Some? && Completes(observation, run.value)
                  && Since(file, |old(file)|) == Carried(effect, run.value.process))
      ensures reliable && old(Spare(19)) && Permissive(format) ==>
                run.Some? && Spare(2)
                && Executed(old(currentState), currentState, effect, Since(file, |old(file)|), run.value, observation)
    {
      hide Reduce, SafeAs, StoredAs, Live, Silent, With, Dispatchable, Capture, Bytes, Meanwhile, Since, Seen, Pieces, SpareAs,
        Storable, OutputOf, Keeps, Permissive, StdoutText, StderrText, Produced, Carrying, Marked, Carried, Completes, Executed,
        ReportOf;
      observation, run := RunBlocked, None;
      SinceNow(file);
      var refused := *;
      if refused && !reliable { return; }
      ghost var start := currentState;
      var ok := StartCommand(effect, reliable);
      if !ok { return; }
      var native := Native(effect.actionId);
      runs, run := runs + [native], Some(native);
      var captured := Capture(native.process);
      ghost var before := file;
      ok := ObserveOutput(effect, captured, reliable, start);
      SinceMore(before, |old(file)|, file);
      CarriedPrefix(effect, native.process, Since(file, |before|));
      if ok { observation := CommandCompleted(effect, ReportOf(captured, native.startedAt, native.completedAt, native.visibleBytes)); }
      CompletesNow(effect, native);
      if reliable && old(Spare(19)) && Permissive(format) {
        ExecutedNow(start, currentState, effect, Since(file, |old(file)|), native, observation, ok);
      }
    }

    /** The native process, whatever it does, with the times and the visible bytes its host takes down. */
    method Native(actionId: Id) returns (r: NativeRun)
      ensures r.actionId == actionId && Produced(r.process)
    {
      var process: Process, startedAt: int, completedAt: int, visibleBytes: nat := *, *, *, *;
      if !Produced(process) { process := ProcessEnded(true); }
      r := NativeRun(actionId, process, startedAt, completedAt, visibleBytes);
    }

    // ----- settling an effect -----

    /** The hosts' reconcile: a preparation is always retried, a command only if it was never dispatched; a
        repository read consults its receipt. */
    method Reconcile(effect: Effect, dispatchStarted: bool, reliable: bool) returns (r: Reconciled)
      requires !effect.ModelStep?
      ensures Reconcilable(effect, dispatchStarted, r, reliable)
    {
      match effect {
        case RunCommand(_) => r := if dispatchStarted then UnknownOutcome else NotStartedYet;
        case PrepareCommand(_, _) => r := NotStartedYet;
        case ReadTool(_) =>
          var known, read, result := *, *, *;
          r := if known then Completed(ReadCompleted(effect, result)) else if read || reliable then NotStartedYet else UnknownOutcome;
      }
    }

    /** Commits what settles an effect. */
    method CommitSettling(event: Event, reliable: bool, ghost n: nat) returns (ok: bool)
      requires Valid() && Safe() && Settling(event) && Honest(event, runs, answers)
      modifies this`file, this`torn, this`records, this`currentState, this`sequence, this`journalBytes, this`startedAtMs, this`lastEventId
      ensures Valid() && Safe() && old(file) <= file && (ok ==> Settled(currentState))
      ensures Since(file, |old(file)|) <= [event] && (ok ==> Since(file, |old(file)|) == [event])
      ensures InputCount(currentState) == InputCount(old(currentState))
      ensures reliable && old(Spare(n)) && n > 0 && Permissive(format) ==>
                && (ok <==> Bounded(event) && Reduce(old(currentState), event).Some?)
                && (!ok ==> Since(file, |old(file)|) == [])
    {
      hide Reduce, SafeAs, StoredAs, Live, Silent, With, Settled, Staged, SpareAs, Bounded, Since, Honest, InputCount,
        Permissive, Decodes;
      ghost var before, state := file, currentState;
      LiveStaged(currentState, records);
      SinceNow(file);
      SchemaTakes(format, event);
      ok := Commit(event, reliable, n);
      if file != before { SinceOne(before, |before|, file, event); }
      if ok {
        SettlingSettles(state, event, currentState);
        SameInputs(state, event, currentState);
      }
    }

    // ----- what follows a reconciliation that found the effect not started -----

    method DispatchCommand(effect: Effect, reliable: bool) returns (ok: bool)
      requires Valid() && Safe() && effect.RunCommand? && FlightOf(currentState) == Some(effect) && !Marked(currentState)
      modifies this`file, this`torn, this`records, this`currentState, this`sequence, this`journalBytes, this`startedAtMs,
               this`lastEventId, this`runs
      ensures Valid() && Safe() && old(file) <= file && (ok ==> Settled(currentState))
      ensures reliable && old(Spare(19)) && Permissive(format) ==>
                && |runs| == |old(runs)| + 1 && runs[..|old(runs)|] == old(runs)
                && CommandTold(old(currentState), effect, Since(file, |old(file)|), runs[|old(runs)|], ok)
    {
      hide Reduce, SafeAs, StoredAs, Live, Silent, With, Settled, Staged, SpareAs, Bounded, Since, Honest, InputCount, Meanwhile,
        Executed, CommandTold, Completes, Carried, Keeps, Permissive;
      ghost var begun, start := file, currentState;
      Ready(effect);
      ghost var run;
      var observation;
      observation, run := ExecuteCommand(effect, reliable);
      assert Honest(observation, runs, answers) && Settling(observation) by { ReportedLast(observation, runs, answers, run); }
      ghost var before, state := file, currentState;
      Interfere(reliable, 2);
      SinceInputs(before, |begun|, file);
      LiveStaged(currentState, records);
      ghost var now, last := currentState, file;
      ok := CommitSettling(observation, reliable, 2);
      SinceMore(last, |begun|, file);
      if reliable && old(Spare(19)) && Permissive(format) {
        ExecutedOn(start, state, effect, Since(before, |begun|), run.value, observation, before, last, now);
        CommandSettled(start, state, effect, Since(before, |begun|), run.value, observation, now, ok);
      }
    }

    method DispatchPreparation(effect: Effect, reliable: bool) returns (ok: bool)
      requires Valid() && Safe() && effect.PrepareCommand? && FlightOf(currentState) == Some(effect)
      modifies this`file, this`torn, this`records, this`currentState, this`sequence, this`journalBytes, this`startedAtMs, this`lastEventId
      ensures Valid() && Safe() && old(file) <= file && (ok ==> Settled(currentState))
      ensures Marked(old(currentState)) ==> Since(file, |old(file)|) <= [RunBlocked]
      ensures reliable && old(Spare(19)) && Permissive(format) ==>
                if Marked(old(currentState)) then ok && Since(file, |old(file)|) == [RunBlocked]
                else PreparationTold(old(currentState), effect, Since(file, |old(file)|),
                                     InputCount(currentState) - InputCount(old(currentState)), ok)
    {
      hide Reduce, SafeAs, StoredAs, Live, Silent, With, Settled, Staged, SpareAs, Bounded, Since, Meanwhile, Keeps, Permissive,
        Marked, JustMarked, Dispatchable, InputCount;
      ghost var begun, start := file, currentState;
      LiveStaged(currentState, records);
      InFlightStage(currentState);
      if Marked(currentState) {
        BlockLegal(currentState);
        ok := CommitSettling(RunBlocked, reliable, 19);
        return;
      }
      SinceNow(file);
      ok := MarkDispatchStarted(reliable, 19);
      if file != begun { SinceOne(begun, |begun|, file, DispatchStarted(effect)); }
      if !ok { return; }
      var refused := *;
      var observation := if refused && !reliable then RunBlocked else CommandProposed(effect, effect.callId, effect.expectedRevision);
      ghost var before, state := file, currentState;
      Interfere(reliable, 18);
      SinceInputs(before, |begun|, file);
      ghost var now, last := currentState, file;
      ok := CommitSettling(observation, reliable, 18);
      SinceMore(last, |begun|, file);
      if reliable { ProposalTaken(start, state, effect, before, last, now); }
    }

    method DispatchRead(effect: Effect, reliable: bool) returns (ok: bool)
      requires Valid() && Safe() && effect.ReadTool? && FlightOf(currentState) == Some(effect)
      modifies this`file, this`torn, this`records, this`currentState, this`sequence, this`journalBytes, this`startedAtMs, this`lastEventId
      ensures Valid() && Safe() && old(file) <= file && (ok ==> Settled(currentState))
      ensures reliable && old(Spare(19)) && Permissive(format) ==> ok && ReadTold(effect, Since(file, |old(file)|))
    {
      hide Reduce, SafeAs, StoredAs, Live, Silent, With, Settled, Staged, SpareAs, Bounded, Since, Meanwhile, Permissive;
      var refused, result := *, *;
      var observation := if refused && !reliable then RunBlocked else ReadCompleted(effect, result);
      ghost var before, state := file, currentState;
      SinceNow(file);
      Interfere(reliable, 19);
      SinceInputs(before, |before|, file);
      MeanwhileFlight(before, state, file, currentState);
      LiveStaged(currentState, records);
      ghost var last := file;
      ReadLegal(currentState, effect, result);
      ok := CommitSettling(observation, reliable, 19);
      SinceMore(last, |before|, file);
    }

    method Dispatch(effect: Effect, reliable: bool) returns (ok: bool)
      requires Valid() && Safe() && !effect.ModelStep? && FlightOf(currentState) == Some(effect)
      requires effect.RunCommand? ==> !Marked(currentState)
      modifies this`file, this`torn, this`records, this`currentState, this`sequence, this`journalBytes, this`startedAtMs,
               this`lastEventId, this`runs
      ensures Valid() && Safe() && old(file) <= file && (ok ==> Settled(currentState))
      ensures !effect.RunCommand? ==> runs == old(runs)
      ensures effect.PrepareCommand? && Marked(old(currentState)) ==> Since(file, |old(file)|) <= [RunBlocked]
      ensures reliable && old(Spare(19)) && Permissive(format) ==>
                SettledAs(old(currentState), Since(file, |old(file)|), InputCount(currentState) - InputCount(old(currentState)),
                          old(runs), runs, ok)
    {
      hide Reduce, SafeAs, StoredAs, Live, Silent, With, Settled, SpareAs, Since, Permissive, CommandTold, PreparationTold;
      match effect {
        case RunCommand(_) => ok := DispatchCommand(effect, reliable);
        case PrepareCommand(_, _) => ok := DispatchPreparation(effect, reliable);
        case ReadTool(_) => ok := DispatchRead(effect, reliable);
      }
    }

    /** A dispatched command is never run again, and a dispatched preparation never repeated; an effect that was not
        dispatched is carried out, and what is recorded is what it did. Where the source throws it returns false;
        otherwise the effect is settled, or its step awaits another attempt. */
    method SettleInFlightEffect(reliable: bool) returns (ok: bool, ghost tries: seq<Id>)
      requires Valid() && Safe()
      modifies this`file, this`torn, this`records, this`currentState, this`sequence, this`journalBytes, this`startedAtMs,
               this`lastEventId, this`runs, this`calls, this`answers, this`receipts
      ensures Valid() && Safe() && old(file) <= file
      ensures ok ==> Settled(currentState) || (Awaiting(currentState) && !Awaiting(old(currentState)))
      ensures Marked(old(currentState)) && Dispatchable(old(currentState)) ==>
                runs == old(runs) && Since(file, |old(file)|) <= [RunBlocked]
      ensures reliable && old(Spare(19)) && Permissive(format) && Executes(old(currentState)) ==>
                && SettledAs(old(currentState), Since(file, |old(file)|), InputCount(currentState) - InputCount(old(currentState)),
                             old(runs), runs, ok)
                && (Modelled(old(currentState)) ==>
                      ModelTold(old(currentState), Since(file, |old(file)|), tries, old(calls), calls, answers, old(receipts), ok))
    {
      hide Reduce, SafeAs, StoredAs, Live, Silent, With, Meanwhile, Since, SpareAs, Permissive, SettledAs, Settled, ModelTold;
      tries := [];
      LiveStaged(currentState, records);
      SinceNow(file);
      if !Executes(currentState) { NotExecuting(currentState); }
      if !currentState.Run? || !currentState.phase.Executing? || currentState.inFlight.None? { return true, []; }
      var effect := currentState.inFlight.value;
      if effect.ModelStep? {
        ok, tries := SettleModelEffect(effect, reliable, 19);
        ModelSettled(old(currentState), Since(file, |old(file)|), InputCount(currentState) - InputCount(old(currentState)), runs, ok);
        return;
      }
      ghost var begun, start := file, currentState;
      var reconciled := Reconcile(effect, Marked(currentState), reliable);
      Interfere(reliable, 19);
      SinceInputs(begun, |begun|, file);
      MeanwhileFlight(begun, start, file, currentState);
      ghost var before, state := file, currentState;
      ok := SettleReconciled(effect, reconciled, reliable);
      SinceMore(before, |begun|, file);
      assert Since(file, |begun|) == Since(file, |before|);
      if reliable && old(Spare(19)) && Permissive(format) {
        SettledOn(begun, start, before, state, Since(file, |before|), InputCount(currentState) - InputCount(state), old(runs), runs, ok);
      }
    }

    method SettleReconciled(effect: Effect, reconciled: Reconciled, reliable: bool) returns (ok: bool)
      requires Valid() && Safe() && !effect.ModelStep? && FlightOf(currentState) == Some(effect)
      requires Reconcilable(effect, Marked(currentState), reconciled, reliable)
      modifies this`file, this`torn, this`records, this`currentState, this`sequence, this`journalBytes, this`startedAtMs,
               this`lastEventId, this`runs
      ensures Valid() && Safe() && old(file) <= file && (ok ==> Settled(currentState))
      ensures Marked(old(currentState)) && Dispatchable(old(currentState)) ==>
                runs == old(runs) && Since(file, |old(file)|) <= [RunBlocked]
      ensures reliable && old(Spare(19)) && Permissive(format) ==>
                SettledAs(old(currentState), Since(file, |old(file)|), InputCount(currentState) - InputCount(old(currentState)),
                          old(runs), runs, ok)
    {
      hide Reduce, SafeAs, StoredAs, Live, Silent, With, Since, SpareAs, Permissive, Settled, CommandTold, PreparationTold,
        Bounded, InputCount;
      ghost var start := currentState;
      LiveStaged(currentState, records);
      InFlightBlocks(start);
      match reconciled {
        case Completed(observation) =>
          ReadLegal(start, effect, observation.result);
          ok := CommitSettling(observation, reliable, 19);
        case UnknownOutcome => ok := CommitSettling(RunBlocked, reliable, 19);
        case NotStartedYet => ok := Dispatch(effect, reliable);
      }
    }

    // ----- model steps -----

    /** FakeToolHost.executeModelAttempt: receipt first, then the provider, then a write-once receipt. */
    method ExecuteModelAttempt(effect: Effect, attemptId: Id, reliable: bool) returns (observation: Option<Event>)
      requires Valid() && Safe() && At(calls, attemptId) < Count(file, Starting, attemptId)
      modifies this`calls, this`answers, this`receipts
      ensures Valid() && Safe() && AnswersKept(old(answers), answers)
      ensures At(old(calls), attemptId) == 0 && calls == old(calls)[attemptId := 1]
      ensures observation.Some? ==> attemptId in answers && observation == Some(StepCompleted(effect, answers[attemptId]))
                                    && answers[attemptId].attemptId == attemptId && Honest(observation.value, runs, answers)
      ensures reliable ==> observation.Some?
    {
      hide Reduce, Live, Silent, With, SafeAs, StoredAs, Count, At, Honest, Bytes;
      OneMoreCall(file, format, attemptId, runs, calls, answers, receipts);
      if attemptId in receipts {
        ReceiptHonest(file, attemptId, runs, calls, answers, receipts);
        assert false; // the attempt was recorded just now, so it has no receipt
      }
      calls := calls[attemptId := 1];
      var o: Observation, answered, kept := *, *, *;
      if !answered && !reliable { return None; }
      o := o.(attemptId := attemptId);
      Keep(effect, o, kept || reliable);
      observation := if kept || reliable then Some(StepCompleted(effect, o)) else None;
    }

    /** The provider answered; its answer may be lost before it is kept. */
    method Keep(effect: Effect, o: Observation, kept: bool)
      requires Valid() && Safe() && At(calls, o.attemptId) == 1 && o.attemptId !in answers
      modifies this`answers, this`receipts
      ensures Valid() && Safe() && answers == old(answers)[o.attemptId := o]
      ensures Honest(StepCompleted(effect, o), runs, answers)
    {
      hide Live, Silent, With, SafeAs, StoredAs, At, Honest, Bytes;
      OneMoreAnswer(file, o.attemptId, o, runs, calls, answers, receipts);
      answers := answers[o.attemptId := o];
      if kept { receipts := receipts[o.attemptId := o]; }
      AnswerHonest(effect, o.attemptId, runs, answers);
    }

    /** The record of a new attempt. */
    method StartAttempt(effect: Effect, reliable: bool, ghost n: nat) returns (ok: bool, attemptId: Id)
      requires Valid() && Safe() && effect.ModelStep? && FlightOf(currentState) == Some(effect) && n > 0
      modifies this`file, this`torn, this`records, this`currentState, this`sequence, this`journalBytes, this`startedAtMs, this`lastEventId
      ensures Valid() && Safe() && old(file) <= file && Since(file, |old(file)|) <= [AttemptStarted(attemptId, effect)]
      ensures ok ==> Since(file, |old(file)|) == [AttemptStarted(attemptId, effect)]
                     && At(calls, attemptId) < Count(file, Starting, attemptId)
                     && Attempting(currentState, effect, attemptId) && SameStep(old(currentState), currentState)
                     && TriesAt(currentState) == TriesAt(old(currentState)) + 1
      ensures reliable && old(Spare(n)) && Permissive(format) && Awaiting(old(currentState)) && TriesAt(old(currentState)) < 3 ==>
                ok && Spare(n - 1)
    {
      hide Reduce, SafeAs, StoredAs, Live, Silent, With, AttemptsAt, TriesAt, FlightOf, Awaiting, SpareAs, Since, Attempting, SameStep,
        Bounded, Count, Permissive, Decodes;
      attemptId := *;
      if reliable { attemptId := Beyond(AttemptsOf(currentState)); }
      ghost var begun, start := file, currentState;
      SinceNow(file);
      assert SafeAs(begun, runs, calls, answers, receipts);
      var e := AttemptStarted(attemptId, effect);
      SchemaTakes(format, e);
      ok := Commit(e, reliable, n);
      AttemptTaken(start, attemptId, effect);
      if file != begun { SinceOne(begun, |begun|, file, e); }
      if !ok { return; }
      AttemptMoves(start, attemptId, effect, currentState);
      AttemptMade(start, attemptId, effect, currentState);
      AttemptRecorded(begun, file, attemptId, effect, runs, calls, answers, receipts);
    }

    /** A new attempt: its record, the provider, its observation. `again` asks for the automatic retry. */
    method TryStep(effect: Effect, reliable: bool, ghost n: nat) returns (ok: bool, again: bool, ghost t: Id)
      requires Valid() && Safe() && effect.ModelStep? && FlightOf(currentState) == Some(effect) && n >= 2
      modifies this`file, this`torn, this`records, this`currentState, this`sequence, this`journalBytes, this`startedAtMs,
               this`lastEventId, this`calls, this`answers, this`receipts
      ensures Valid() && Safe() && old(file) <= file && AnswersKept(old(answers), answers)
      ensures forall a :: At(old(calls), a) <= At(calls, a)
      ensures Since(file, |old(file)|) <= TryOf(effect, t, answers) && (again ==> Since(file, |old(file)|) == TryOf(effect, t, answers))
      ensures ok ==> again || Settled(currentState)
      ensures again ==> ok && t in answers && Awaiting(currentState) && FlightOf(currentState) == Some(effect)
                        && TriesAt(currentState) == TriesAt(old(currentState)) + 1 < 3 && SameStep(old(currentState), currentState)
      ensures reliable && old(Spare(n)) && Permissive(format) && Awaiting(old(currentState)) ==>
                (TriesAt(old(currentState)) < 3 ==>
                   && (again ==> Spare(n - 2)) && t in answers && At(old(calls), t) == 0 && At(calls, t) == 1
                   && Since(file, |old(file)|) != [] && (ok <==> |Since(file, |old(file)|)| == 2)
                   && (ok <==> Answerable(old(currentState), answers[t])))
    {
      hide Reduce, SafeAs, StoredAs, Live, Silent, With, AttemptsAt, Meanwhile, TriesAt, FlightOf, Awaiting, Settled, Staged, SpareAs,
        Since, Attempting, SameStep, Answerable, Bounded, Count, Permissive;
      again := false;
      ghost var begun, start := file, currentState;
      var attemptId;
      ok, attemptId := StartAttempt(effect, reliable, n);
      t := attemptId;
      if !ok { return; }
      var observation := ExecuteModelAttempt(effect, attemptId, reliable);
      if observation.None? { return false, false, t; }
      ghost var before, state := file, currentState;
      ok, again := ObserveStep(effect, answers[attemptId], reliable, n - 1);
      SinceMore(before, |begun|, file);
      SameStepOn(start, state, currentState);
      AnswerableSame(start, state, answers[attemptId]);
    }

    /** The provider's answer is recorded if the run can take it. */
    method ObserveStep(effect: Effect, o: Observation, reliable: bool, ghost n: nat) returns (ok: bool, again: bool)
      requires Valid() && Safe() && Attempting(currentState, effect, o.attemptId)
      requires Honest(StepCompleted(effect, o), runs, answers)
      modifies this`file, this`torn, this`records, this`currentState, this`sequence, this`journalBytes, this`startedAtMs, this`lastEventId
      ensures Valid() && Safe() && old(file) <= file
      ensures Since(file, |old(file)|) <= [StepCompleted(effect, o)] && (ok ==> Since(file, |old(file)|) == [StepCompleted(effect, o)])
      ensures ok ==> again || Settled(currentState)
      ensures again <==> ok && Awaiting(currentState)
      ensures again ==> FlightOf(currentState) == Some(effect) && TriesAt(currentState) == TriesAt(old(currentState)) < 2
                        && SameStep(old(currentState), currentState)
      ensures reliable && old(Spare(n)) && n > 0 && Permissive(format) ==>
                && (ok ==> Spare(n - 1)) && (!ok ==> Since(file, |old(file)|) == [])
                && (ok <==> Answerable(old(currentState), o))
    {
      hide Reduce, SafeAs, StoredAs, Live, Silent, With, AttemptsAt, Meanwhile, TriesAt, FlightOf, Awaiting, Settled, Staged, SpareAs,
        Since, Attempting, SameStep, Answerable, Bounded, Honest, Permissive, Decodes;
      var e := StepCompleted(effect, o);
      ghost var begun, start := file, currentState;
      SinceNow(file);
      Interfere(reliable, n);
      SinceInputs(begun, |begun|, file);
      MeanwhileFlight(begun, start, file, currentState);
      AttemptingOn(begun, start, file, currentState, effect, o.attemptId);
      LiveStaged(currentState, records);
      ghost var before, state := file, currentState;
      SchemaTakes(format, e);
      ok := Commit(e, reliable, n);
      ObservationTaken(state, effect, o);
      AnswerableSame(start, state, o);
      if file != before { SinceOne(before, |begun|, file, e); }
      again := false;
      if ok { ObservationSettles(state, e, currentState); }
      if ok && Awaiting(currentState) {
        RetryMoves(state, e, currentState);
        RetryCostsNothing(state, e, currentState);
        SameStepOn(start, state, currentState);
        again := true;
      }
    }

    /** An attempt found in flight: its receipt, or an unknown outcome. */
    method ReconcileAttempt(effect: Effect, reliable: bool, ghost n: nat) returns (ok: bool)
      requires Valid() && Safe() && effect.ModelStep? && FlightOf(currentState) == Some(effect)
      requires currentState.phase == Executing(ModelInFlight)
      modifies this`file, this`torn, this`records, this`currentState, this`sequence, this`journalBytes, this`startedAtMs, this`lastEventId
      ensures Valid() && Safe() && old(file) <= file
      ensures ok ==> Settled(currentState) || Awaiting(currentState)
      ensures reliable && old(Spare(n)) && n > 0 && Permissive(format) ==>
                && old(currentState).attempts != []
                && ModelTold(old(currentState), Since(file, |old(file)|), [], calls, calls, answers, receipts, ok)
    {
      hide Reduce, SafeAs, StoredAs, Live, Silent, With, Settled, SpareAs, Since, Answerable;
      LiveStaged(currentState, records);
      var attempt := currentState.attempts[|currentState.attempts| - 1];
      var known := attempt.attemptId in receipts;
      var observation := if known then receipts[attempt.attemptId] else Unknown(attempt.attemptId);
      if known { ReceiptHonest(file, attempt.attemptId, runs, calls, answers, receipts); }
      var again;
      ok, again := ObserveStep(effect, observation, reliable, n);
    }

    /** An attempt id reaches the provider only right after its record is durable; an attempt in flight from
        before is only reconciled with its receipt. The kernel asks for at most one automatic retry. */
    method SettleModelEffect(effect: Effect, reliable: bool, ghost n: nat) returns (ok: bool, ghost tries: seq<Id>)
      requires Valid() && Safe() && effect.ModelStep? && FlightOf(currentState) == Some(effect)
      requires currentState.phase.Executing? && n >= 2 && n + 2 * TriesAt(currentState) >= 6
      modifies this`file, this`torn, this`records, this`currentState, this`sequence, this`journalBytes, this`startedAtMs,
               this`lastEventId, this`calls, this`answers, this`receipts
      ensures Valid() && Safe() && old(file) <= file && AnswersKept(old(answers), answers)
      ensures forall a :: At(old(calls), a) <= At(calls, a)
      ensures ok ==> Settled(currentState) || (Awaiting(currentState) && !Awaiting(old(currentState)))
      ensures !Awaiting(old(currentState)) ==> calls == old(calls)
      ensures Awaiting(old(currentState)) ==> Since(file, |old(file)|) <= Tries(effect, tries, answers)
      ensures reliable && old(Spare(n)) && Permissive(format) ==>
                && Modelled(old(currentState))
                && ModelTold(old(currentState), Since(file, |old(file)|), tries, old(calls), calls, answers, old(receipts), ok)
      decreases 3 - TriesAt(currentState)
    {
      hide Reduce, SafeAs, StoredAs, Live, Silent, With, AttemptsAt, Meanwhile, TriesAt, Settled, ModelTold, SpareAs, SameStep, TryOf,
        Answerable, Since, Permissive, Staged;
      ghost var begun, start := file, currentState;
      LiveStaged(currentState, records);
      ModelStage(currentState);
      tries := [];
      if Awaiting(currentState) {
        var again;
        ghost var t;
        ok, again, t := TryStep(effect, reliable, n);
        tries := [t];
        TriesStep(effect, t, [], answers, answers);
        ghost var before, state, known, called, kept := file, currentState, answers, calls, receipts;
        CalledOnce(file, format, t, runs, calls, answers, receipts);
        if !again {
          if TriesAt(start) >= 3 {
            TriesSpent(start, Since(file, |begun|), tries, old(calls), calls, answers, old(receipts), ok);
          } else if reliable && old(Spare(n)) && Permissive(format) {
            TriesOne(start, effect, Since(file, |begun|), t, old(calls), calls, answers, old(receipts), ok);
          }
          return;
        }
        ghost var more;
        ok, more := SettleModelEffect(effect, reliable, n - 2);
        tries := [t] + more;
        SinceMore(before, |begun|, file);
        TriesStep(effect, t, more, known, answers);
        CalledOnce(file, format, t, runs, calls, answers, receipts);
        if reliable && old(Spare(n)) && Permissive(format) {
          TriesMore(start, state, effect, Since(before, |begun|), Since(file, |before|), t, more, old(calls), called, calls,
                    known, answers, old(receipts), kept, ok);
        }
      } else {
        ok := ReconcileAttempt(effect, reliable, n);
      }
    }

    // ----- the driver and its client -----

    /** A pending input is delivered before the model's next step. */
    method DeliverNext(reliable: bool) returns (ok: bool, ghost turn: Id)
      requires Valid() && Safe()
      modifies this`file, this`torn, this`records, this`currentState, this`sequence, this`journalBytes, this`startedAtMs, this`lastEventId
      ensures Valid() && Safe() && old(file) <= file
      ensures Since(file, |old(file)|) <= Delivery(old(currentState), turn)
      ensures ok ==> Since(file, |old(file)|) == Delivery(old(currentState), turn)
                     && currentState.Run? == old(currentState).Run? && InputCount(currentState) == InputCount(old(currentState))
                     && (currentState.Run? ==> SameWork(old(currentState), currentState))
      ensures reliable && old(Spare(3)) && Permissive(format) ==> ok && Spare(2)
    {
      hide Reduce, SafeAs, StoredAs, Live, Silent, With, NextInput, SpareAs, Since, SameWork, InputCount, Bounded, Permissive,
        Decodes;
      ok, turn := true, 0;
      ghost var begun, start := file, currentState;
      SinceNow(file);
      if currentState.Run? && currentState.phase == Executing(ModelReady) {
        var next := NextInput(currentState);
        if next.Some? {
          var turnId: Id := *;
          turn := turnId;
          var e := InputDelivered(next.value.messageId, turnId);
          ok := Commit(e, reliable, 3);
          DeliveryMoves(start, next.value.messageId, turnId, currentState);
          SchemaTakes(format, e);
          if file != begun { SinceOne(begun, |begun|, file, e); }
          return;
        }
      }
      NothingDelivered(start, turn);
      SpareDown(3, 2);
    }

    method ConsumeApproval(reliable: bool) returns (ok: bool)
      requires Valid() && Safe()
      modifies this`file, this`torn, this`records, this`currentState, this`sequence, this`journalBytes, this`startedAtMs, this`lastEventId
      ensures Valid() && Safe() && old(file) <= file
      ensures Since(file, |old(file)|) <= Consumption(old(currentState))
      ensures ok ==> Since(file, |old(file)|) == Consumption(old(currentState))
                     && currentState.Run? == old(currentState).Run? && InputCount(currentState) == InputCount(old(currentState))
                     && (currentState.Run? ==> Consumed(old(currentState), currentState))
      ensures reliable && old(Spare(2)) && Permissive(format) ==> ok && Spare(1)
    {
      hide Reduce, SafeAs, StoredAs, Live, Silent, With, SpareAs, Since, SameWork, InputCount, Bounded, Consumed, Permissive,
        Decodes;
      ok := true;
      ghost var begun, start := file, currentState;
      SinceNow(file);
      LiveStaged(currentState, records);
      if currentState.Run? && currentState.phase == Executing(ConsumeReady) && currentState.action.Some? {
        var e := ApprovalConsumed(currentState.action.value);
        ok := Commit(e, reliable, 2);
        ConsumptionMoves(start, currentState);
        SchemaTakes(format, e);
        if file != begun { SinceOne(begun, |begun|, file, e); }
        return;
      }
      if start.Run? { NotConsuming(start); }
      SpareDown(2, 1);
    }

    /** The deliveries and the approval that come before a request. */
    method BeforeRequest(reliable: bool) returns (ok: bool, ghost turn: Id)
      requires Valid() && Safe()
      modifies this`file, this`torn, this`records, this`currentState, this`sequence, this`journalBytes, this`startedAtMs, this`lastEventId
      ensures Valid() && Safe() && old(file) <= file
      ensures Since(file, |old(file)|) <= Delivery(old(currentState), turn) + Consumption(old(currentState))
      ensures ok ==> Since(file, |old(file)|) == Delivery(old(currentState), turn) + Consumption(old(currentState))
                     && currentState.Run? == old(currentState).Run? && InputCount(currentState) >= InputCount(old(currentState))
                     && (currentState.Run? ==> Consumed(old(currentState), currentState))
      ensures reliable && old(Spare(3)) && Permissive(format) ==> ok && Spare(1)
    {
      hide Reduce, SafeAs, StoredAs, Live, Silent, With, Meanwhile, SpareAs, Since, SameWork, InputCount, Consumed, Delivery,
        Consumption, Permissive;
      ghost var begun, start := file, currentState;
      ok, turn := DeliverNext(reliable);
      if !ok { return; }
      ghost var before, first := file, currentState;
      Interfere(reliable, 2);
      SinceInputs(before, |begun|, file);
      WorkOn(before, first, file, currentState);
      ghost var later, second := file, currentState;
      WorkJoins(start, first, second);
      ok := ConsumeApproval(reliable);
      SinceMore(later, |begun|, file);
      WorkJoins(start, second, currentState);
      NotRunning(start);
      NotRunning(second);
    }

    /** decide and the commit of what it says. */
    method RequestDecided(reliable: bool) returns (requested: Option<Effect>)
      requires Valid() && Safe() && (currentState.Run? ==> currentState.phase != Executing(ConsumeReady))
      modifies this`file, this`torn, this`records, this`currentState, this`sequence, this`journalBytes, this`startedAtMs, this`lastEventId
      ensures Valid() && Safe() && old(file) <= file
      ensures requested.Some? ==> records == file && file != [] && file[|file| - 1].event == EffectRequested(requested.value)
                                  && FlightOf(currentState) == requested
                                  && (requested.value.RunCommand? ==> !Marked(currentState))
      ensures requested.Some? || (reliable && old(Spare(1)) && Permissive(format)) ==>
                AskedAs(old(currentState), currentState, Since(file, |old(file)|), requested)
    {
      hide Reduce, SafeAs, StoredAs, Live, Silent, With, Decide, Meanwhile, FlightOf, Marked, SpareAs, Since, Bounded, Permissive,
        Decodes, AskedAs, InputCount;
      requested := None;
      ghost var begun, start := file, currentState;
      SinceNow(file);
      var effect := Decide(currentState);
      if effect.None? {
        NothingAsked(start, start);
        return;
      }
      Interfere(reliable, 1);
      SinceInputs(begun, |begun|, file);
      ghost var state, last := currentState, file;
      var e := EffectRequested(effect.value);
      SchemaTakes(format, e);
      var ok := Commit(e, reliable, 1);
      AskedFor(start, state, currentState, begun, last, effect.value);
      if ok {
        SinceOne(last, |begun|, file, e);
        assert Since(file, |begun|) == [e];
        RequestMoves(state, effect.value, currentState);
        requested := Some(effect.value);
      }
    }

    /** The effect it returns is the one in flight, recorded and not dispatched; it is the one the run's phase asks for. */
    method RequestNextEffect(reliable: bool) returns (requested: Option<Effect>, ghost turn: Id)
      requires Valid() && Safe()
      modifies this`file, this`torn, this`records, this`currentState, this`sequence, this`journalBytes, this`startedAtMs, this`lastEventId
      ensures Valid() && Safe() && old(file) <= file
      ensures requested.Some? ==> records == file && file != [] && file[|file| - 1].event == EffectRequested(requested.value)
                                  && FlightOf(currentState) == requested
                                  && (requested.value.RunCommand? ==> !Marked(currentState))
      ensures requested.Some? || (reliable && old(Spare(3)) && Permissive(format)) ==>
                RequestedAs(old(currentState), currentState, Since(file, |old(file)|), requested, turn)
    {
      hide Reduce, SafeAs, StoredAs, Live, Silent, With, FlightOf, Marked, SpareAs, Since, InputCount, Consumed, Delivery, Consumption,
        AskedAs, RequestedAs, Permissive, Meanwhile, SameWork;
      requested := None;
      ghost var begun, start := file, currentState;
      var ok;
      ok, turn := BeforeRequest(reliable);
      if !ok { return; }
      ghost var later, ready := file, currentState;
      Interfere(reliable, 1);
      SinceInputs(later, |begun|, file);
      WorkOn(later, ready, file, currentState);
      WorkJoins(start, ready, currentState);
      ghost var before, first := file, currentState;
      if first.Run? { NotConsumingNow(start, first); }
      requested := RequestDecided(reliable);
      SinceMore(before, |begun|, file);
      if requested.Some? || (reliable && old(Spare(3)) && Permissive(format)) {
        AskedOn(start, first, currentState, Since(before, |begun|), Since(file, |before|), requested, turn);
      }
    }

    /** What the client itself commits: starting a run, resolving an approval, retrying, ending. */
    method Command()
      requires Valid() && Safe()
      modifies this`file, this`torn, this`records, this`currentState, this`sequence, this`journalBytes, this`startedAtMs, this`lastEventId
      ensures Valid() && Safe() && old(file) <= file
    {
      hide Reduce, SafeAs, StoredAs, Live, Silent, With;
      var which: int, grant: Option<Grant>, action: Id, approve := *, *, *, *;
      var event := match which
                   case 0 => RunStarted(grant)
                   case 1 => ApprovalResolved(action, approve)
                   case 2 => RetryRequested
                   case 3 => RunBlocked
                   case _ => RunCancelled;
      var ok := Commit(event, false, 0);
    }

    /** Any number of steps of the driver, the client and the active-input lane, with the process stopping and
        the journal being reopened anywhere between the steps of a driver. */
    method AnyHistory(steps: nat)
      requires Valid() && Safe()
      modifies this
      ensures Stored() && Safe() && old(file) <= file
      ensures forall a :: RunsOf(runs, a) <= Count(file, Dispatching, a) <= Count(file, Requesting, a)
                            <= Count(file, Approving, a) <= Count(file, Proposing, a)
      ensures forall a :: Count(file, Proposing, a) <= 1 ==> RunsOf(runs, a) <= 1
      ensures forall k :: 0 <= k < |file| && file[k].event.CommandProposed? ==>
                file[k].event.effect.PrepareCommand? && file[k].event.actionId == file[k].event.effect.callId
      ensures forall t :: At(calls, t) <= Count(file, Starting, t) <= 1
      ensures forall k :: 0 <= k < |file| && file[k].event.CommandCompleted? ==> Reported(file[k].event, runs)
    {
      hide Reduce, SafeAs, StoredAs, Live, Silent, Meanwhile, Count, With;
      for k := 0 to steps
        invariant Valid() && Safe() && old(file) <= file
      {
        var step: int := *;
        if step == 0 {
          var error := Open();
          if error.Some? { break; }
        } else if step == 1 {
          var _, _ := RequestNextEffect(false);
        } else if step == 2 {
          var _, _ := SettleInFlightEffect(false);
        } else if step == 3 {
          Command();
        } else {
          Interfere(false, 0);
        }
      }
      NothingTwice(file, format, runs, calls, answers, receipts);
      HonestRecords(file, runs, calls, answers, receipts);
    }
  }
}
