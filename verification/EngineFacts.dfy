/** The runtime's journal as a file, what the world saw of its effects, and what carrying out an effect records
    (runtime.ts, journal/file-journal.ts, run-command.ts). */
module EngineFacts {
  import opened Results
  import opened Kernel
  import opened KernelFacts
  import opened RuntimeJournal
  import opened Utf16
  import opened Utf8
  import opened OutputChunks
  import opened CommandOutcome

  /** withDerivedJournalUsage; None where it throws. */
  function WithDerived(s: State, d: Derived): Option<State> {
    if !Budgeted(s) then Some(s) else if !WithinGrant(s, d) then None else Some(With(s, d))
  }

  predicate Live(s: State, records: seq<Record>) {
    Replay(records).Some? && s == With(Replay(records).value, DerivedOf(records))
  }

  predicate ValidSequence(records: seq<Record>) {
    && (forall k :: 0 <= k < |records| ==> records[k].sequence == k)
    && (forall i, j :: 0 <= i < j < |records| ==> records[i].eventId != records[j].eventId)
  }

  /** The journal's byte limit, and whatever else its record schema asks of an event beyond the ranges of its numbers. */
  datatype Format = Format(byteLimit: nat, schema: Event -> bool)

  predicate Decodes(e: Event, format: Format) {
    Bounded(e) && format.schema(e)
  }

  /** FileJournal refuses to read anything larger, and any record that does not decode. */
  predicate Fits(records: seq<Record>, format: Format) {
    && |records| <= RECORD_LIMIT && Bytes(records) <= format.byteLimit
    && (forall k :: 0 <= k < |records| ==> Decodes(records[k].event, format))
    && forall k :: 0 <= k < |records| ==> records[k].size <= RECORD_BYTES
  }

  /** The journal reopens unless it outgrew the plain ceiling and its run has no coding budget. */
  predicate Reopens(records: seq<Record>)
    requires Replay(records).Some?
  {
    Bytes(records) <= 1_048_576 || Budgeted(Replay(records).value)
  }

  /** `after` differs from `before` by what the active-input lane may have committed meanwhile. */
  predicate Onlooked(before: State, after: State) {
    && before.Run? && after.Run?
    && after == before.(inputs := after.inputs, revision := after.revision, budget := after.budget)
    && (after.budget.Some? == before.budget.Some?)
    && (after.budget.Some? ==>
          after.budget == Some(before.budget.value.(usage := before.budget.value.usage.(derived := after.budget.value.usage.derived))))
    && InputsGrow(before.inputs, after.inputs) && after.revision == before.revision + (|after.inputs| - |before.inputs|)
  }

  /** What the active-input lane may have done between two steps of the driver. */
  predicate Meanwhile(file: seq<Record>, state: State, later: seq<Record>, next: State) {
    && file <= later && OnlySince(later, |file|, FromInputLane)
    && (next == state || Onlooked(state, next))
  }

  lemma OneMore(file: seq<Record>, state: State, later: seq<Record>, next: State, e: Event, last: seq<Record>, final: State)
    requires Meanwhile(file, state, later, next) && e.InputAccepted?
    requires last == later || (|last| == |later| + 1 && last[..|later|] == later && last[|later|].event == e)
    requires final == next || (Reduce(next, e).Some? && With(final, ZERO) == With(Reduce(next, e).value, ZERO))
    ensures Meanwhile(file, state, last, final)
  {
    assert last[..|file|] == later[..|file|];
    if final != next {
      ReduceLedger(next, e);
      ReduceInputs(next, e);
      var made := Reduce(next, e).value;
      assert made == next.(inputs := made.inputs, revision := next.revision + 1);
      assert Onlooked(next, final);
    }
  }

  function At(m: map<Id, nat>, id: Id): nat {
    if id in m then m[id] else 0
  }

  /** A command in flight that was not dispatched has printed nothing. */
  predicate Silent(s: State) {
    s.Run? && s.inFlight.Some? && s.inFlight.value.RunCommand? && !s.dispatched && s.output.Some? ==>
      s.output.value.stdout == [] && s.output.value.stderr == []
  }

  lemma SilentStep(s: State, e: Event, next: State)
    requires Silent(s) && (e.CommandOutput? ==> Marked(s))
    requires Reduce(s, e).Some? && With(next, ZERO) == With(Reduce(s, e).value, ZERO)
    ensures Silent(next)
  {
    hide CloseAll, Pending, Finish, JoinedBytes, DecodeChunk, AttemptsAt;
    if s.Run? && e.StepCompleted? && e.observation.Finished? {
      var at := |s.attempts| - 1;
      FinishFlight(s.(attempts := s.attempts[at := s.attempts[at].(observation := Some(e.observation))]), e.observation);
    }
  }

  /** A journal of this engine's commits. */
  predicate Orderly(records: seq<Record>) {
    Written(records) && Silent(Replay(records).value)
  }

  lemma LiveSilent(s: State, records: seq<Record>)
    requires Live(s, records)
    ensures Replay(records).Some? && Silent(s) == Silent(Replay(records).value)
  {
    hide Replay, DerivedOf;
  }

  /** What the file always holds. */
  predicate StoredAs(file: seq<Record>, format: Format) {
    Orderly(file) && ValidSequence(file) && Fits(file, format)
  }

  /** The checks of FileJournal.append before it writes. */
  predicate Acceptable(records: seq<Record>, record: Record, format: Format) {
    && Decodes(record.event, format)
    && record.size <= RECORD_BYTES && |records| < RECORD_LIMIT && Bytes(records) + record.size <= format.byteLimit
    && ValidSequence(records + [record])
  }

  lemma StoredSequence(file: seq<Record>, format: Format)
    requires StoredAs(file, format)
    ensures ValidSequence(file)
  {
  }

  lemma StoredAppend(file: seq<Record>, record: Record, format: Format)
    requires StoredAs(file, format) && Orderly(file + [record]) && Acceptable(file, record, format)
    ensures StoredAs(file + [record], format)
  {
    assert (file + [record])[..|file|] == file;
  }

  /** A native run of a command, with the times and the visible bytes its host took down. */
  datatype NativeRun = NativeRun(actionId: Id, process: Process, startedAt: int, completedAt: int, visibleBytes: nat)

  function RunsOf(runs: seq<NativeRun>, a: Id): nat {
    if runs == [] then 0
    else RunsOf(runs[..|runs| - 1], a) + if runs[|runs| - 1].actionId == a then 1 else 0
  }

  /** The event reports this run. */
  predicate Completes(e: Event, r: NativeRun) {
    && e.CommandCompleted? && e.effect == RunCommand(r.actionId) && Accounts(r.process, e.report)
    && e.report.startedAt == r.startedAt && e.report.completedAt == r.completedAt && e.report.visibleBytes == r.visibleBytes
  }

  predicate Reported(e: Event, runs: seq<NativeRun>) {
    exists k :: 0 <= k < |runs| && Completes(e, runs[k])
  }

  /** What the hosts report: the runs there were, the provider's own answers, and proposals named after their tool
      call. */
  predicate Honest(e: Event, runs: seq<NativeRun>, answers: map<Id, Observation>) {
    && (e.CommandCompleted? ==> Reported(e, runs))
    && (e.StepCompleted? && e.observation.Finished? ==>
          e.observation.attemptId in answers && answers[e.observation.attemptId] == e.observation)
    && (e.CommandProposed? ==> e.effect.PrepareCommand? && e.actionId == e.effect.callId)
  }

  /** Every native run of a command has its own dispatch record and every provider call its own attempt
      record; what is recorded as a finished attempt is what the provider answered. */
  ghost predicate SafeAs(file: seq<Record>, runs: seq<NativeRun>, calls: map<Id, nat>, answers: map<Id, Observation>,
                         receipts: map<Id, Observation>) {
    && (forall a :: RunsOf(runs, a) <= Count(file, Dispatching, a))
    && (forall t :: At(calls, t) <= Count(file, Starting, t))
    && (forall t :: t in answers ==> At(calls, t) >= 1 && answers[t].attemptId == t)
    && (forall t :: t in receipts ==> t in answers && receipts[t] == answers[t])
    && (forall k :: 0 <= k < |file| ==> Honest(file[k].event, runs, answers))
  }

  lemma SafeAppend(file: seq<Record>, record: Record, runs: seq<NativeRun>, calls: map<Id, nat>,
                   answers: map<Id, Observation>, receipts: map<Id, Observation>)
    requires SafeAs(file, runs, calls, answers, receipts) && Honest(record.event, runs, answers)
    ensures SafeAs(file + [record], runs, calls, answers, receipts)
  {
    forall a ensures RunsOf(runs, a) <= Count(file + [record], Dispatching, a) { CountAppend(file, record, Dispatching, a); }
    forall t ensures At(calls, t) <= Count(file + [record], Starting, t) { CountAppend(file, record, Starting, t); }
  }

  /** What a commit computes is what replaying the longer journal gives. */
  lemma CommitLive(before: seq<Record>, record: Record, state: State, transition: State, derived: Derived, next: State)
    requires Written(before) && Live(state, before) && record.sequence == |before|
    requires Reduce(state, record.event) == Some(transition)
    requires derived == Derived(Bytes(before) + record.size, |before| + 1,
                                if before == [] then 0 else Elapsed(before[0].at, record.at))
    requires WithDerived(transition, derived) == Some(next)
    ensures Written(before + [record]) && Live(next, before + [record]) && With(next, ZERO) == With(transition, ZERO)
  {
    var after := before + [record];
    ReplayAppend(before, record);
    assert derived == DerivedOf(after);
    StepLive(Replay(before).value, record.event, DerivedOf(before), derived);
    assert next == With(transition, derived) && WithinGrant(transition, derived);
    assert after[..|before|] == before;
    assert Sound(after);
  }

  /** A dispatch record just written allows one more run of its command. */
  lemma OneMoreRun(before: seq<Record>, file: seq<Record>, r: NativeRun, runs: seq<NativeRun>, calls: map<Id, nat>,
                   answers: map<Id, Observation>, receipts: map<Id, Observation>)
    requires SafeAs(before, runs, calls, answers, receipts) && SafeAs(file, runs, calls, answers, receipts)
    requires |file| == |before| + 1 && file[..|before|] == before && file[|before|].event == DispatchStarted(RunCommand(r.actionId))
    ensures SafeAs(file, runs + [r], calls, answers, receipts)
  {
    hide Completes;
    assert (runs + [r])[..|runs|] == runs && file == before + [file[|before|]];
    CountAppend(before, file[|before|], Dispatching, r.actionId);
    forall k | 0 <= k < |file| ensures Honest(file[k].event, runs + [r], answers) {
      if file[k].event.CommandCompleted? {
        var i :| 0 <= i < |runs| && Completes(file[k].event, runs[i]);
        assert (runs + [r])[i] == runs[i];
      }
    }
  }

  lemma ReceiptHonest(file: seq<Record>, t: Id, runs: seq<NativeRun>, calls: map<Id, nat>,
                      answers: map<Id, Observation>, receipts: map<Id, Observation>)
    requires SafeAs(file, runs, calls, answers, receipts) && t in receipts
    ensures t in answers && receipts[t] == answers[t] && receipts[t].attemptId == t
  {
  }

  /** An attempt record without a call allows one call. */
  lemma OneMoreCall(file: seq<Record>, format: Format, t: Id, runs: seq<NativeRun>, calls: map<Id, nat>,
                    answers: map<Id, Observation>, receipts: map<Id, Observation>)
    requires StoredAs(file, format) && SafeAs(file, runs, calls, answers, receipts)
    requires At(calls, t) < Count(file, Starting, t)
    ensures SafeAs(file, runs, calls[t := 1], answers, receipts) && t !in answers && At(calls, t) == 0 && At(calls[t := 1], t) == 1
  {
    AttemptsOnce(file, t);
    assert Count(file, Starting, t) == 1;
  }

  lemma AnswerHonest(effect: Effect, t: Id, runs: seq<NativeRun>, answers: map<Id, Observation>)
    requires t in answers && answers[t].attemptId == t
    ensures Honest(StepCompleted(effect, answers[t]), runs, answers)
  {
  }

  lemma CalledOnce(file: seq<Record>, format: Format, t: Id, runs: seq<NativeRun>, calls: map<Id, nat>,
                   answers: map<Id, Observation>, receipts: map<Id, Observation>)
    requires StoredAs(file, format) && SafeAs(file, runs, calls, answers, receipts)
    ensures At(calls, t) <= 1
  {
    AttemptsOnce(file, t);
  }

  lemma AttemptRecorded(before: seq<Record>, file: seq<Record>, t: Id, effect: Effect, runs: seq<NativeRun>,
                        calls: map<Id, nat>, answers: map<Id, Observation>, receipts: map<Id, Observation>)
    requires SafeAs(before, runs, calls, answers, receipts)
    requires |file| == |before| + 1 && file[..|before|] == before && file[|before|].event == AttemptStarted(t, effect)
    ensures At(calls, t) < Count(file, Starting, t)
  {
    assert file == before + [file[|before|]];
    CountAppend(before, file[|before|], Starting, t);
  }

  lemma OneMoreAnswer(file: seq<Record>, t: Id, o: Observation, runs: seq<NativeRun>, calls: map<Id, nat>,
                      answers: map<Id, Observation>, receipts: map<Id, Observation>)
    requires SafeAs(file, runs, calls, answers, receipts)
    requires At(calls, t) == 1 && t !in answers && o.attemptId == t
    ensures SafeAs(file, runs, calls, answers[t := o], receipts)
    ensures SafeAs(file, runs, calls, answers[t := o], receipts[t := o])
  {
  }

  /** The records written since are about inputs only, so an effect in flight keeps its dispatch mark. */
  lemma MeanwhileFlight(file: seq<Record>, state: State, later: seq<Record>, next: State)
    requires Meanwhile(file, state, later, next)
    ensures FlightOf(next) == FlightOf(state) && Marked(next) == Marked(state) && TriesAt(next) == TriesAt(state)
    ensures next.Run? == state.Run? && (state.Run? ==> next.phase == state.phase)
  {
  }

  function TriesAt(s: State): nat {
    if s.Run? then AttemptsAt(s.attempts, s.step) else 0
  }

  function FlightOf(s: State): Option<Effect> {
    if s.Run? then s.inFlight else None
  }

  predicate Marked(s: State) {
    s.Run? && s.dispatched
  }

  predicate Awaiting(s: State) {
    s.Run? && s.phase == Executing(AwaitingAttempt)
  }

  lemma AttemptMoves(s: State, t: Id, effect: Effect, next: State)
    requires Reduce(s, AttemptStarted(t, effect)).Some?
    requires With(next, ZERO) == With(Reduce(s, AttemptStarted(t, effect)).value, ZERO)
    ensures TriesAt(next) == TriesAt(s) + 1 <= 3 && FlightOf(next) == FlightOf(s)
  {
    var made := Reduce(s, AttemptStarted(t, effect)).value;
    assert made.attempts[..|made.attempts| - 1] == s.attempts;
  }

  /** After an observation the run awaits another attempt of the same step only for an automatic retry. */
  lemma RetryMoves(s: State, e: Event, next: State)
    requires e.StepCompleted? && Reduce(s, e).Some? && With(next, ZERO) == With(Reduce(s, e).value, ZERO) && Awaiting(next)
    ensures TriesAt(next) == TriesAt(s) < 2 && FlightOf(next) == FlightOf(s) && e.observation.NotStarted?
  {
    hide Pending, CloseAll, Proposals, DeclaredBytes, ToolsExceeded, StepsExceeded, AcceptInput, DeliverInput, Request,
      Kernel.Dispatch, StartAttempt, CompleteRead, Propose, Resolve, Consume, ObserveOutput, CompleteCommand;
    var made := Reduce(s, e).value;
    var front := made.attempts[..|made.attempts| - 1];
    assert front == s.attempts[..|s.attempts| - 1];
  }

  /** In a safe world no dispatch is run twice and no attempt reaches the provider twice; every run has a proposal
      of its own, so a command proposed once runs once at most. */
  lemma NothingTwice(file: seq<Record>, format: Format, runs: seq<NativeRun>, calls: map<Id, nat>,
                     answers: map<Id, Observation>, receipts: map<Id, Observation>)
    requires StoredAs(file, format) && SafeAs(file, runs, calls, answers, receipts)
    ensures forall a :: RunsOf(runs, a) <= Count(file, Dispatching, a) <= Count(file, Requesting, a)
                            <= Count(file, Approving, a) <= Count(file, Proposing, a)
    ensures forall a :: Count(file, Proposing, a) <= 1 ==> RunsOf(runs, a) <= 1
    ensures forall t :: At(calls, t) <= Count(file, Starting, t) <= 1
  {
    hide Count, Reduce;
    assert Replay(file).Some?;
    forall a ensures Count(file, Dispatching, a) <= Count(file, Requesting, a)
                     <= Count(file, Approving, a) <= Count(file, Proposing, a) {
      DispatchesRequestsApprovals(file, a);
    }
    forall t ensures Count(file, Starting, t) <= 1 {
      AttemptsOnce(file, t);
    }
  }

  lemma HonestRecords(file: seq<Record>, runs: seq<NativeRun>, calls: map<Id, nat>, answers: map<Id, Observation>,
                       receipts: map<Id, Observation>)
    requires SafeAs(file, runs, calls, answers, receipts)
    ensures forall k :: 0 <= k < |file| && file[k].event.CommandProposed? ==>
              file[k].event.effect.PrepareCommand? && file[k].event.actionId == file[k].event.effect.callId
    ensures forall k :: 0 <= k < |file| && file[k].event.CommandCompleted? ==> Reported(file[k].event, runs)
  {
    hide Reported;
    forall k | 0 <= k < |file| ensures Honest(file[k].event, runs, answers) {
    }
  }

  lemma DraftLive(before: seq<Record>, record: Record, state: State, transition: State, derived: Derived, next: State)
    requires Silent(state) && (record.event.CommandOutput? ==> Marked(state))
    requires Live(state, before) && record.sequence == |before| && Reduce(state, record.event) == Some(transition)
    requires derived == Derived(Bytes(before) + record.size, |before| + 1,
                                if before == [] then 0 else Elapsed(before[0].at, record.at))
    requires WithDerived(transition, derived) == Some(next)
    ensures With(next, ZERO) == With(transition, ZERO)
    ensures Silent(next) && (Orderly(before) ==> Orderly(before + [record]) && Live(next, before + [record]))
  {
    hide Reduce, With, Live, WithDerived, Written, Replay, Bytes, WithinGrant, Silent;
    DraftMoves(transition, derived, next);
    SilentStep(state, record.event, next);
    if Orderly(before) {
      CommitLive(before, record, state, transition, derived, next);
      LiveSilent(next, before + [record]);
    }
  }

  lemma DraftMoves(transition: State, derived: Derived, next: State)
    requires WithDerived(transition, derived) == Some(next)
    ensures With(next, ZERO) == With(transition, ZERO)
  {
  }

  /** Nothing executing is in flight: a run between effects, ended, or waiting for the user's retry. */
  predicate Settled(s: State) {
    FlightOf(s).Some? ==> s.phase == AwaitingRetry
  }

  lemma LiveStaged(s: State, records: seq<Record>)
    requires Live(s, records)
    ensures Staged(s)
  {
    hide Reduce;
    ReplayedState(records);
  }

  predicate Settling(e: Event) {
    e.ReadCompleted? || e.CommandProposed? || e.CommandCompleted? || e.RunBlocked?
  }

  /** A settling event that is legal takes the effect out of flight. */
  lemma SettlingSettles(s: State, e: Event, next: State)
    requires Settling(e) && Staged(s) && Reduce(s, e).Some? && With(next, ZERO) == With(Reduce(s, e).value, ZERO)
    ensures Settled(next)
  {
  }

  /** A legal observation settles the step or asks for another attempt. */
  lemma ObservationSettles(s: State, e: Event, next: State)
    requires e.StepCompleted? && Staged(s) && Reduce(s, e).Some? && With(next, ZERO) == With(Reduce(s, e).value, ZERO)
    ensures Settled(next) || Awaiting(next)
  {
    hide Finish;
    if s.Run? && e.observation.Finished? {
      var at := |s.attempts| - 1;
      FinishFlight(s.(attempts := s.attempts[at := s.attempts[at].(observation := Some(e.observation))]), e.observation);
    }
  }

  lemma FinishFlight(s: State, o: Observation)
    requires s.Run? && o.Finished? && Finish(s, o).Some?
    ensures Finish(s, o).value.Run? && FlightOf(Finish(s, o).value).None?
  {
    hide Pending, CloseAll, Proposals, DeclaredBytes;
  }

  // ----- which records a step of the engine writes -----

  predicate FromInputLane(e: Event) { e.InputAccepted? }

  /** All records from `from` on are of this kind. */
  predicate OnlySince(file: seq<Record>, from: nat, kind: Event -> bool) {
    from <= |file| && forall k :: from <= k < |file| ==> kind(file[k].event)
  }

  lemma RequestMoves(s: State, effect: Effect, next: State)
    requires Reduce(s, EffectRequested(effect)).Some?
    requires With(next, ZERO) == With(Reduce(s, EffectRequested(effect)).value, ZERO)
    ensures FlightOf(next) == Some(effect) && (effect.RunCommand? ==> !Marked(next))
  {
  }

  // ----- what was recorded, inputs aside -----

  /** The events of records, without the inputs of the other lane. */
  function Acts(records: seq<Record>): seq<Event> {
    if records == [] then []
    else
      var last := records[|records| - 1].event;
      Acts(records[..|records| - 1]) + if last.InputAccepted? then [] else [last]
  }

  /** What was recorded from here on. */
  function Since(file: seq<Record>, from: nat): seq<Event>
    requires from <= |file|
  {
    Acts(file[from..])
  }

  lemma SinceNow(file: seq<Record>)
    ensures Since(file, |file|) == []
  {
  }

  lemma SinceOne(file: seq<Record>, from: nat, later: seq<Record>, e: Event)
    requires from <= |file| && |later| == |file| + 1 && later[..|file|] == file && later[|file|].event == e
    ensures Since(later, from) == Since(file, from) + if e.InputAccepted? then [] else [e]
  {
    assert later[from..][..|file| - from] == file[from..];
  }

  lemma {:induction false} ActsJoin(a: seq<Record>, b: seq<Record>)
    ensures Acts(a + b) == Acts(a) + Acts(b)
  {
    if b == [] {
      assert a + b == a;
    } else {
      assert (a + b)[..|a + b| - 1] == a + b[..|b| - 1];
      ActsJoin(a, b[..|b| - 1]);
    }
  }

  lemma SinceMore(file: seq<Record>, from: nat, later: seq<Record>)
    requires from <= |file| && file <= later
    ensures Since(later, from) == Since(file, from) + Since(later, |file|)
  {
    assert later[from..] == file[from..] + later[|file|..];
    ActsJoin(file[from..], later[|file|..]);
  }

  lemma {:induction false} InputsOnly(records: seq<Record>)
    requires forall k :: 0 <= k < |records| ==> records[k].event.InputAccepted?
    ensures Acts(records) == []
  {
    if records != [] { InputsOnly(records[..|records| - 1]); }
  }

  lemma SinceInputs(file: seq<Record>, from: nat, later: seq<Record>)
    requires from <= |file| && file <= later && OnlySince(later, |file|, FromInputLane)
    ensures Since(later, from) == Since(file, from)
  {
    SinceMore(file, from, later);
    forall k | 0 <= k < |later[|file|..]| ensures later[|file|..][k].event.InputAccepted? {
      assert FromInputLane(later[|file| + k].event);
    }
    InputsOnly(later[|file|..]);
  }

  // ----- room in the journal -----

  /** Room for n more records, of whatever size, in the file and in the grant. */
  predicate Roomy(s: State, records: seq<Record>, format: Format, n: nat) {
    && |records| + n <= RECORD_LIMIT && Bytes(records) + n * 65_536 <= format.byteLimit
    && (Budgeted(s) ==> |records| + n <= s.budget.value.grant.journalRecords
                        && Bytes(records) + n * 65_536 <= s.budget.value.grant.journalBytes)
  }

  /** The journal object is in step with its file, and there is room for n records besides every input the run may
      still accept. */
  predicate SpareAs(s: State, records: seq<Record>, file: seq<Record>, torn: bool, format: Format, n: nat) {
    && s.Run? && records == file && !torn && |s.inputs| <= 8 && Roomy(s, records, format, n + (8 - |s.inputs|))
  }

  ghost predicate Permissive(format: Format) {
    forall e :: format.schema(e)
  }

  lemma SchemaTakes(format: Format, e: Event)
    ensures Permissive(format) && Bounded(e) ==> Decodes(e, format)
  {
  }

  function Above(records: seq<Record>): (id: Id)
    ensures forall k :: 0 <= k < |records| ==> records[k].eventId < id
  {
    if records == [] then 0
    else
      var front := Above(records[..|records| - 1]);
      if front > records[|records| - 1].eventId then front else records[|records| - 1].eventId + 1
  }

  lemma GrantKept(s: State, e: Event)
    requires s.Run? && Reduce(s, e).Some?
    ensures Reduce(s, e).value.Run?
    ensures Budgeted(Reduce(s, e).value) ==>
              Budgeted(s) && Reduce(s, e).value.budget.value.grant == s.budget.value.grant
  {
    hide Pending, CloseAll;
  }

  /** A record of the next sequence number and a new id, not too large, is acceptable where there is room. */
  lemma {:induction false} RoomForOne(s: State, records: seq<Record>, record: Record, transition: State, format: Format, derived: Derived)
    requires s.Run? && ValidSequence(records) && Roomy(s, records, format, 1) && Reduce(s, record.event) == Some(transition)
    requires record.sequence == |records| && record.eventId == Above(records) && record.size <= RECORD_BYTES
    requires Decodes(record.event, format) && derived.journalBytes == Bytes(records) + record.size
    requires derived.journalRecords == |records| + 1
    requires Budgeted(transition) ==> derived.wallTimeMs <= transition.budget.value.grant.wallTimeMs
    ensures WithDerived(transition, derived).Some? && Acceptable(records, record, format)
  {
    GrantKept(s, record.event);
  }

  /** What a commit leaves of the room. */
  lemma {:induction false} SpareNext(s: State, records: seq<Record>, e: Event, record: Record, next: State, format: Format, n: nat)
    requires SpareAs(s, records, records, false, format, n) && Reduce(s, e).Some? && (n > 0 || e.InputAccepted?)
    requires With(next, ZERO) == With(Reduce(s, e).value, ZERO) && record.size <= RECORD_BYTES
    ensures SpareAs(next, records + [record], records + [record], false, format, if e.InputAccepted? then n else n - 1)
  {
    GrantKept(s, e);
    ReduceInputs(s, e);
    assert (records + [record])[..|records|] == records;
    if e.InputAccepted? { AcceptedFew(s, e); }
  }

  lemma AcceptedFew(s: State, e: Event)
    requires s.Run? && e.InputAccepted? && Reduce(s, e).Some?
    ensures |s.inputs| < 8
  {
  }

  // ----- what stays while an effect is carried out -----

  predicate SameBudget(a: Option<Budget>, b: Option<Budget>) {
    && a.Some? == b.Some?
    && (a.Some? ==> b.value == a.value.(usage := a.value.usage.(derived := b.value.usage.derived)))
  }

  /** The state but for its inputs, revision, dispatch mark, output and derived usage. */
  predicate Keeps(a: State, b: State) {
    && a.Run? && b.Run? && SameBudget(a.budget, b.budget)
    && b == a.(inputs := b.inputs, revision := b.revision, dispatched := b.dispatched, output := b.output, budget := b.budget)
  }

  lemma KeepsOn(a: State, b: State, c: State)
    requires Keeps(a, b) && Keeps(b, c)
    ensures Keeps(a, c)
  {
  }

  lemma OnlookedKeeps(file: seq<Record>, a: State, later: seq<Record>, b: State)
    requires Meanwhile(file, a, later, b) && a.Run?
    ensures Keeps(a, b) && b.output == a.output && b.dispatched == a.dispatched
  {
  }

  // ----- what carrying out an effect records -----

  /** A stream of which the schema and the kernel take every chunk. */
  predicate Storable(content: Text) {
    |Pieces(content)| <= 8 && JoinedBytes(Seen(Pieces(content))) <= 65_536
  }

  /** The records of a command before its completion. */
  function Carried(effect: Effect, p: Process): seq<Event> {
    [DispatchStarted(effect)] + OutputOf(effect, Stdout, StdoutText(p)) + OutputOf(effect, Stderr, StderrText(p))
  }

  /** Executing the command from `s` on led to `t`: it ran, all that it printed was recorded if that was possible, and
      what is reported is this run. */
  predicate Executed(s: State, t: State, effect: Effect, acts: seq<Event>, r: NativeRun, observation: Event) {
    && Keeps(s, t) && Produced(r.process) && effect == RunCommand(r.actionId)
    && if Storable(StdoutText(r.process)) && Storable(StderrText(r.process)) then
         && acts == Carried(effect, r.process) && Completes(observation, r)
         && Carrying(s, t, Output(r.actionId, Seen(Pieces(StdoutText(r.process))), Seen(Pieces(StderrText(r.process)))))
       else acts != [] && acts < Carried(effect, r.process) && observation == RunBlocked
  }

  lemma CompletesNow(effect: Effect, r: NativeRun)
    requires effect == RunCommand(r.actionId)
    ensures Completes(CommandCompleted(effect, ReportOf(Capture(r.process), r.startedAt, r.completedAt, r.visibleBytes)), r)
  {
    CaptureTells(r.process, r.startedAt, r.completedAt, r.visibleBytes);
  }

  lemma ExecutedNow(s: State, t: State, effect: Effect, acts: seq<Event>, r: NativeRun, observation: Event, ok: bool)
    requires Keeps(s, t) && Produced(r.process) && effect == RunCommand(r.actionId)
    requires ok <==> Storable(Capture(r.process).stdout) && Storable(Capture(r.process).stderr)
    requires ok ==>
               && acts == Carried(effect, r.process) && Completes(observation, r)
               && Carrying(s, t, Output(r.actionId, Seen(Pieces(Capture(r.process).stdout)), Seen(Pieces(Capture(r.process).stderr))))
    requires !ok ==> acts != [] && acts < Carried(effect, r.process) && observation == RunBlocked
    ensures Executed(s, t, effect, acts, r, observation)
  {
    hide Storable, Pieces, Seen, Carried, Keeps, Completes;
    CaptureTells(r.process, 0, 0, 0);
  }

  lemma CarriedPrefix(effect: Effect, p: Process, printed: seq<Event>)
    requires printed <= OutputOf(effect, Stdout, Capture(p).stdout) + OutputOf(effect, Stderr, Capture(p).stderr)
    ensures var acts := [DispatchStarted(effect)] + printed;
            && acts <= Carried(effect, p) && acts[0] == DispatchStarted(effect)
            && (printed == OutputOf(effect, Stdout, Capture(p).stdout) + OutputOf(effect, Stderr, Capture(p).stderr) <==>
                  acts == Carried(effect, p))
  {
    hide OutputOf, StdoutText, StderrText, Capture;
    CaptureTells(p, 0, 0, 0);
    var whole := OutputOf(effect, Stdout, StdoutText(p)) + OutputOf(effect, Stderr, StderrText(p));
    assert Carried(effect, p) == [DispatchStarted(effect)] + whole;
    assert Carried(effect, p)[1..] == whole && ([DispatchStarted(effect)] + printed)[1..] == printed;
  }

  /** The state while a command that began in `s` runs and has printed this much. */
  predicate Carrying(s: State, t: State, o: Output) {
    Keeps(s, t) && t.dispatched && t.output == Some(o)
  }

  lemma CarryingOne(s: State, t: State, effect: Effect, o: Output, stream: Stream, front: seq<Text>, last: Text, next: State)
    requires Commanding(s, effect) && o.actionId == effect.actionId && Carrying(s, t, WithChunks(o, stream, Seen(front)))
    ensures var e := CommandOutput(effect, stream, |front|, ByteLength(last), Encode(last));
            && (Reduce(t, e).Some? <==> JoinedBytes(Seen(front + [last])) <= STREAM_BYTES)
            && (Reduce(t, e).Some? && With(next, ZERO) == With(Reduce(t, e).value, ZERO) ==>
                  Carrying(s, next, WithChunks(o, stream, Seen(front + [last]))))
  {
    hide Reduce, Seen, JoinedBytes, ByteLength, Encode;
    ObserveOne(t, effect, stream, front, last);
  }

  lemma CarryingOn(s: State, t: State, o: Output, file: seq<Record>, later: seq<Record>, next: State)
    requires Keeps(s, t) && Meanwhile(file, t, later, next)
    ensures Keeps(s, next) && (Carrying(s, t, o) ==> Carrying(s, next, o))
  {
    OnlookedKeeps(file, t, later, next);
    KeepsOn(s, t, next);
  }

  /** The dispatch of the effect in flight was recorded. */
  predicate JustMarked(s: State, t: State) {
    Keeps(s, t) && t.dispatched && t.output == s.output && t.inputs == s.inputs && t.revision == s.revision + 1
  }

  lemma DispatchMoves(s: State, next: State)
    requires Dispatchable(s) && !s.dispatched
    ensures var e := DispatchStarted(s.inFlight.value);
            && Reduce(s, e).Some?
            && (With(next, ZERO) == With(Reduce(s, e).value, ZERO) ==>
                  JustMarked(s, next) && Dispatchable(next) && FlightOf(next) == FlightOf(s))
  {
  }

  /** An undispatched command in flight can start to print. */
  lemma CommandReady(s: State, records: seq<Record>, effect: Effect)
    requires Live(s, records) && Silent(s) && FlightOf(s) == Some(effect) && effect.RunCommand? && !Marked(s)
    ensures Commanding(s, effect) && Dispatchable(s) && s.output == Some(Output(effect.actionId, [], []))
  {
    hide Live;
    LiveStaged(s, records);
  }

  lemma NothingYet(o: Output, stream: Stream)
    requires ChunksOf(o, stream) == []
    ensures WithChunks(o, stream, Seen([])) == o && JoinedBytes(Seen([])) <= STREAM_BYTES
  {
    NoBytes();
    assert Seen([]) == [];
  }

  lemma CarryingMarked(s: State, t: State, o: Output)
    requires Carrying(s, t, o)
    ensures Marked(t) && Keeps(s, t)
  {
  }

  lemma {:induction false} SeenPrefix(pieces: seq<Text>, k: nat)
    requires k <= |pieces|
    ensures JoinedBytes(Seen(pieces[..k])) <= JoinedBytes(Seen(pieces))
    decreases |pieces|
  {
    hide JoinedBytes, Seen;
    if k < |pieces| {
      var front := pieces[..|pieces| - 1];
      SeenPrefix(front, k);
      assert front[..k] == pieces[..k] && front + [pieces[|pieces| - 1]] == pieces;
      SeenGrows(front, pieces[|pieces| - 1]);
    } else {
      assert pieces[..k] == pieces;
    }
  }

  /** What settling a command that was not dispatched before records: its dispatch, all that it printed and its
      completion, if its outcome is keepable; otherwise a block behind the chunks that could be recorded, or nothing more if
      only the completion could not. */
  predicate CommandTold(s: State, effect: Effect, acts: seq<Event>, r: NativeRun, ok: bool)
    requires s.Run?
  {
    var before := Carried(effect, r.process);
    && effect == RunCommand(r.actionId) && Produced(r.process)
    && if Keepable(s, r.process, r.startedAt, r.completedAt, r.visibleBytes) then
         ok && |acts| == |before| + 1 && acts[..|before|] == before && Completes(acts[|before|], r)
       else if Storable(StdoutText(r.process)) && Storable(StderrText(r.process)) then !ok && acts == before
       else ok && |acts| > 1 && acts[|acts| - 1] == RunBlocked && acts[..|acts| - 1] < before
  }

  lemma CompletionTaken(s: State, t: State, effect: Effect, r: NativeRun, e: Event)
    requires Commanding(s, effect) && Staged(t) && effect == RunCommand(r.actionId) && Completes(e, r) && Produced(r.process)
    requires Storable(StdoutText(r.process)) && Storable(StderrText(r.process))
    requires Carrying(s, t, Output(r.actionId, Seen(Pieces(StdoutText(r.process))), Seen(Pieces(StderrText(r.process)))))
    ensures Reduce(t, e).Some? && Bounded(e) <==> Keepable(s, r.process, r.startedAt, r.completedAt, r.visibleBytes)
  {
    hide Reduce, Seen, Pieces, JoinedBytes, Capture, Miscounted;
    var p := r.process;
    CaptureTells(p, r.startedAt, r.completedAt, r.visibleBytes);
    assert e == CommandCompleted(effect, ReportOf(Capture(p), r.startedAt, r.completedAt, r.visibleBytes));
    CompletionLegalIff(t, effect, p, r.startedAt, r.completedAt, r.visibleBytes);
  }

  lemma UnstorableLost(s: State, r: NativeRun)
    requires s.Run? && Produced(r.process) && !(Storable(StdoutText(r.process)) && Storable(StderrText(r.process)))
    ensures !Keepable(s, r.process, r.startedAt, r.completedAt, r.visibleBytes)
  {
    hide Seen, Pieces, JoinedBytes, Miscounted;
    CaptureTells(r.process, 0, 0, 0);
    CapturedCounts(r.process);
  }

  lemma BlockLegal(s: State)
    requires s.Run? && !s.phase.Terminal?
    ensures Reduce(s, RunBlocked).Some? && Bounded(RunBlocked)
  {
  }

  /** Settling what was executed. */
  lemma CommandSettled(s: State, t: State, effect: Effect, acts: seq<Event>, r: NativeRun, observation: Event, now: State, ok: bool)
    requires Commanding(s, effect) && Executed(s, t, effect, acts, r, observation) && Staged(now)
    requires Keeps(s, now) && (t.Run? && now == t.(inputs := now.inputs, revision := now.revision, budget := now.budget))
    requires ok <==> Bounded(observation) && Reduce(now, observation).Some?
    ensures CommandTold(s, effect, acts + if ok then [observation] else [], r, ok)
  {
    hide Reduce, Seen, Pieces, JoinedBytes, Keepable, Storable, Bounded, Carried, Staged, Accounts;
    if Storable(StdoutText(r.process)) && Storable(StderrText(r.process)) {
      CompletionTaken(s, now, effect, r, observation);
    } else {
      UnstorableLost(s, r);
      BlockLegal(now);
    }
  }

  /** What settling a preparation records; its approval is only for the revision it was requested at. */
  predicate PreparationTold(s: State, effect: Effect, acts: seq<Event>, inputs: int, ok: bool) {
    && effect.PrepareCommand? && s.Run? && (ok <==> effect.expectedRevision == s.revision + 2 + inputs)
    && acts == [DispatchStarted(effect)] + if ok then [CommandProposed(effect, effect.callId, effect.expectedRevision)] else []
  }

  predicate ReadTold(effect: Effect, acts: seq<Event>) {
    |acts| == 1 && acts[0].ReadCompleted? && acts[0].effect == effect
  }

  /** What settling the effect in flight records where no file or host fails, inputs aside. */
  predicate SettledAs(s: State, acts: seq<Event>, inputs: int, before: seq<NativeRun>, after: seq<NativeRun>, ok: bool)
    requires s.Run? && s.inFlight.Some?
  {
    match s.inFlight.value
    case RunCommand(_) =>
      if s.dispatched then ok && acts == [RunBlocked] && after == before
      else |after| == |before| + 1 && after[..|before|] == before && CommandTold(s, s.inFlight.value, acts, after[|before|], ok)
    case PrepareCommand(_, _) =>
      after == before
      && if s.dispatched then ok && acts == [RunBlocked] else PreparationTold(s, s.inFlight.value, acts, inputs, ok)
    case ReadTool(_) => after == before && ok && ReadTold(s.inFlight.value, acts)
    case ModelStep(_) => after == before
  }

  /** An effect is in flight. */
  predicate Executes(s: State) {
    s.Run? && s.phase.Executing? && s.inFlight.Some?
  }

  lemma NotExecuting(s: State)
    requires Staged(s) && !Executes(s)
    ensures Settled(s)
  {
  }

  lemma ModelSettled(s: State, acts: seq<Event>, inputs: int, runs: seq<NativeRun>, ok: bool)
    requires s.Run? && s.inFlight.Some? && s.inFlight.value.ModelStep?
    ensures SettledAs(s, acts, inputs, runs, runs, ok)
  {
  }

  /** Inputs accepted before make no difference but for the revision. */
  lemma SettledOn(file: seq<Record>, s: State, later: seq<Record>, t: State, acts: seq<Event>, inputs: int,
                  before: seq<NativeRun>, after: seq<NativeRun>, ok: bool)
    requires Executes(s) && Meanwhile(file, s, later, t) && SettledAs(t, acts, inputs, before, after, ok)
    ensures SettledAs(s, acts, inputs + InputCount(t) - InputCount(s), before, after, ok)
  {
    hide Miscounted, Pieces, JoinedBytes, Seen, Carried, Completes, StdoutText, StderrText;
    OnlookedKeeps(file, s, later, t);
  }

  lemma ReportedLast(e: Event, runs: seq<NativeRun>, answers: map<Id, Observation>, run: Option<NativeRun>)
    requires e == RunBlocked || (run.Some? && runs != [] && runs[|runs| - 1] == run.value && Completes(e, run.value))
    ensures Honest(e, runs, answers) && Settling(e)
  {
  }

  lemma ExecutedOn(s: State, t: State, effect: Effect, acts: seq<Event>, r: NativeRun, observation: Event,
                   file: seq<Record>, later: seq<Record>, now: State)
    requires Executed(s, t, effect, acts, r, observation) && Meanwhile(file, t, later, now)
    ensures Keeps(s, now) && t.Run? && now == t.(inputs := now.inputs, revision := now.revision, budget := now.budget)
  {
    hide Carried, Completes, Storable, Seen, Pieces, Produced;
    OnlookedKeeps(file, t, later, now);
    KeepsOn(s, t, now);
  }

  lemma InFlightStage(s: State)
    requires Staged(s) && FlightOf(s).Some? && FlightOf(s).value.PrepareCommand?
    ensures Dispatchable(s) && !s.phase.Terminal?
  {
  }

  lemma ProposalTaken(s: State, t: State, effect: Effect, file: seq<Record>, later: seq<Record>, now: State)
    requires Dispatchable(s) && FlightOf(s) == Some(effect) && effect.PrepareCommand?
    requires JustMarked(s, t) && Meanwhile(file, t, later, now)
    ensures var e := CommandProposed(effect, effect.callId, effect.expectedRevision);
            && Bounded(e)
            && (Reduce(now, e).Some? <==> effect.expectedRevision == s.revision + 2 + (InputCount(now) - InputCount(s)))
  {
  }

  lemma ReadLegal(s: State, effect: Effect, result: ReadResult)
    requires Staged(s) && FlightOf(s) == Some(effect) && effect.ReadTool?
    ensures Reduce(s, ReadCompleted(effect, result)).Some? && Bounded(ReadCompleted(effect, result))
  {
  }

  lemma InFlightBlocks(s: State)
    requires Staged(s) && FlightOf(s).Some? && !FlightOf(s).value.ModelStep?
    ensures Reduce(s, RunBlocked).Some? && Bounded(RunBlocked)
  {
  }

  function InputCount(s: State): nat {
    if s.Run? then |s.inputs| else 0
  }

  lemma SameInputs(s: State, e: Event, next: State)
    requires Settling(e) && Reduce(s, e).Some? && With(next, ZERO) == With(Reduce(s, e).value, ZERO)
    ensures InputCount(next) == InputCount(s)
  {
    if s.Run? { ReduceInputs(s, e); }
  }

  // ----- what a model step records -----

  /** The run takes the observation: its schema does, and an answer has text or calls and is within the budget. */
  predicate Answerable(s: State, o: Observation) {
    s.Run? && (o.Finished? ==>
      var spent := if s.budget.None? then None else Some(Spent(s.budget.value, o.calls));
      && |o.calls| <= 4 && (o.stop <==> o.calls == [])
      && (o.calls == [] ==>
            || (spent.Some? && StepsExceeded(spent.value, s.step, o.calls))
            || (o.hasText && !(spent.Some? && ToolsExceeded(spent.value, o.calls)))))
  }

  lemma FinishesIff(s: State, o: Observation)
    requires s.Run? && o.Finished? && |o.calls| <= 4 && (o.stop <==> o.calls == [])
    ensures Finish(s, o).Some? <==> Answerable(s, o)
  {
    hide Pending, CloseAll, Proposals, DeclaredBytes, ToolsExceeded, StepsExceeded;
  }

  /** The step and what its answer may cost. */
  predicate SameStep(s: State, t: State) {
    s.Run? && t.Run? && t.step == s.step && SameBudget(s.budget, t.budget)
  }

  lemma AnswerableSame(s: State, t: State, o: Observation)
    ensures SameStep(s, t) ==> Answerable(s, o) == Answerable(t, o)
  {
    hide Proposals, DeclaredBytes;
    if SameStep(s, t) && s.budget.Some? && o.Finished? {
      assert StepsExceeded(Spent(s.budget.value, o.calls), s.step, o.calls)
          == StepsExceeded(Spent(t.budget.value, o.calls), s.step, o.calls);
      assert ToolsExceeded(Spent(s.budget.value, o.calls), o.calls) == ToolsExceeded(Spent(t.budget.value, o.calls), o.calls);
    }
  }

  /** The attempt in flight, not observed yet. */
  predicate Attempting(s: State, effect: Effect, t: Id) {
    && s.Run? && s.phase == Executing(ModelInFlight) && s.inFlight == Some(effect) && effect.ModelStep? && s.attempts != []
    && s.attempts[|s.attempts| - 1] == Attempt(t, s.step, None)
  }

  lemma ObservationTaken(s: State, effect: Effect, o: Observation)
    requires Attempting(s, effect, o.attemptId)
    ensures Reduce(s, StepCompleted(effect, o)).Some? && Bounded(StepCompleted(effect, o)) <==> Answerable(s, o)
  {
    hide Finish, Answerable;
    var at := |s.attempts| - 1;
    var observed := s.(attempts := s.attempts[at := s.attempts[at].(observation := Some(o))]);
    Limited(s, o);
    if o.Finished? && |o.calls| <= 4 && (o.stop <==> o.calls == []) {
      FinishesIff(observed, o);
      AnswerableSame(s, observed, o);
    }
  }

  lemma Limited(s: State, o: Observation)
    requires s.Run?
    ensures Answerable(s, o) && o.Finished? ==> |o.calls| <= 4 && (o.stop <==> o.calls == [])
    ensures !o.Finished? ==> Answerable(s, o)
  {
  }

  function AttemptsOf(s: State): seq<Attempt> {
    if s.Run? then s.attempts else []
  }

  lemma {:induction false} AttemptTaken(s: State, t: Id, effect: Effect)
    ensures Awaiting(s) && FlightOf(s) == Some(effect) && effect.ModelStep? && TriesAt(s) < 3 && t == Beyond(AttemptsOf(s)) ==>
              Reduce(s, AttemptStarted(t, effect)).Some?
    ensures Bounded(AttemptStarted(t, effect))
  {
  }

  lemma SameStepOn(s: State, t: State, u: State)
    ensures SameStep(s, t) && SameStep(t, u) ==> SameStep(s, u)
  {
  }

  lemma AttemptMade(s: State, t: Id, effect: Effect, next: State)
    requires Reduce(s, AttemptStarted(t, effect)).Some?
    requires With(next, ZERO) == With(Reduce(s, AttemptStarted(t, effect)).value, ZERO)
    ensures Attempting(next, effect, t) && SameStep(s, next)
  {
    hide AttemptsAt;
  }

  lemma AttemptingOn(file: seq<Record>, s: State, later: seq<Record>, next: State, effect: Effect, t: Id)
    requires Meanwhile(file, s, later, next) && Attempting(s, effect, t)
    ensures Attempting(next, effect, t) && SameStep(s, next) && FlightOf(s) == Some(effect)
  {
  }

  /** An automatic retry costs nothing. */
  lemma RetryCostsNothing(s: State, e: Event, next: State)
    requires e.StepCompleted? && Reduce(s, e).Some? && With(next, ZERO) == With(Reduce(s, e).value, ZERO) && Awaiting(next)
    ensures SameStep(s, next)
  {
    hide Pending, CloseAll, Proposals, DeclaredBytes, ToolsExceeded, StepsExceeded, AttemptsAt, AcceptInput, DeliverInput,
      Request, Kernel.Dispatch, StartAttempt, CompleteRead, Propose, Resolve, Consume, ObserveOutput, CompleteCommand;
  }

  function Beyond(attempts: seq<Attempt>): (t: Id)
    ensures forall k :: 0 <= k < |attempts| ==> attempts[k].attemptId < t
  {
    if attempts == [] then 0
    else
      var front := Beyond(attempts[..|attempts| - 1]);
      if front > attempts[|attempts| - 1].attemptId then front else attempts[|attempts| - 1].attemptId + 1
  }

  /** The records of an attempt and of the provider's answer to it. */
  function TryOf(effect: Effect, t: Id, answers: map<Id, Observation>): seq<Event> {
    [AttemptStarted(t, effect)] + if t in answers then [StepCompleted(effect, answers[t])] else []
  }

  function Tries(effect: Effect, tries: seq<Id>, answers: map<Id, Observation>): seq<Event> {
    if tries == [] then [] else TryOf(effect, tries[0], answers) + Tries(effect, tries[1..], answers)
  }

  predicate AnswersKept(before: map<Id, Observation>, after: map<Id, Observation>) {
    forall t :: t in before ==> t in after && after[t] == before[t]
  }

  /** Each of the attempts was new, reached the provider once and was answered. */
  predicate Answered(tries: seq<Id>, before: map<Id, nat>, calls: map<Id, nat>, answers: map<Id, Observation>) {
    forall k :: 0 <= k < |tries| ==> tries[k] in answers && At(before, tries[k]) == 0 && At(calls, tries[k]) == 1
  }

  /** What settling a model step records: attempts with the provider's answers, the last of which the run took unless
      it is none it can take; or the receipt of the attempt found in flight. */
  predicate ModelTold(s: State, acts: seq<Event>, tries: seq<Id>, before: map<Id, nat>, calls: map<Id, nat>,
                      answers: map<Id, Observation>, receipts: map<Id, Observation>, ok: bool)
    requires s.Run? && s.inFlight.Some? && (s.phase == Executing(ModelInFlight) ==> s.attempts != [])
  {
    var effect := s.inFlight.value;
    if Awaiting(s) then
      TriesAt(s) < 3 ==>
        && tries != [] && Answered(tries, before, calls, answers) && (ok <==> Answerable(s, answers[tries[|tries| - 1]]))
        && acts <= Tries(effect, tries, answers) && |acts| == |Tries(effect, tries, answers)| - if ok then 0 else 1
    else
      s.phase == Executing(ModelInFlight) ==>
        var t := s.attempts[|s.attempts| - 1].attemptId;
        var o := if t in receipts then receipts[t] else Unknown(t);
        (ok <==> Answerable(s, o)) && acts == if ok then [StepCompleted(effect, o)] else []
  }

  /** A model step is in flight. */
  predicate Modelled(s: State) {
    s.Run? && s.inFlight.Some? && s.inFlight.value.ModelStep? && (s.phase == Executing(ModelInFlight) ==> s.attempts != [])
  }

  lemma ModelStage(s: State)
    requires Staged(s) && FlightOf(s).Some? && FlightOf(s).value.ModelStep? && s.phase.Executing?
    ensures Modelled(s) && (Awaiting(s) || s.phase == Executing(ModelInFlight))
    ensures s.phase == Executing(ModelInFlight) ==> Attempting(s, FlightOf(s).value, s.attempts[|s.attempts| - 1].attemptId)
  {
  }

  lemma TriesStep(effect: Effect, t: Id, tries: seq<Id>, before: map<Id, Observation>, answers: map<Id, Observation>)
    requires AnswersKept(before, answers)
    ensures Tries(effect, [t], answers) == TryOf(effect, t, answers)
    ensures t in before ==> Tries(effect, [t] + tries, answers) == TryOf(effect, t, before) + Tries(effect, tries, answers)
  {
    assert [t][1..] == [] && ([t] + tries)[1..] == tries;
  }

  lemma TriesSpent(s: State, acts: seq<Event>, tries: seq<Id>, before: map<Id, nat>, calls: map<Id, nat>,
                   answers: map<Id, Observation>, receipts: map<Id, Observation>, ok: bool)
    requires Awaiting(s) && s.inFlight.Some? && TriesAt(s) >= 3
    ensures ModelTold(s, acts, tries, before, calls, answers, receipts, ok)
  {
  }

  lemma TriesOne(s: State, effect: Effect, acts: seq<Event>, t: Id, before: map<Id, nat>, calls: map<Id, nat>,
                 answers: map<Id, Observation>, receipts: map<Id, Observation>, ok: bool)
    requires Awaiting(s) && s.inFlight == Some(effect) && t in answers && At(before, t) == 0 && At(calls, t) == 1
    requires acts <= TryOf(effect, t, answers) && acts != [] && (ok <==> |acts| == 2) && (ok <==> Answerable(s, answers[t]))
    ensures ModelTold(s, acts, [t], before, calls, answers, receipts, ok)
  {
    hide Answerable;
    assert [t][1..] == [] && Tries(effect, [t], answers) == TryOf(effect, t, answers) + [];
  }

  lemma TriesMore(s: State, u: State, effect: Effect, first: seq<Event>, acts: seq<Event>, t: Id, tries: seq<Id>,
                  before: map<Id, nat>, between: map<Id, nat>, calls: map<Id, nat>, answers: map<Id, Observation>,
                  after: map<Id, Observation>, receipts: map<Id, Observation>, middle: map<Id, Observation>, ok: bool)
    requires Awaiting(s) && Awaiting(u) && s.inFlight == Some(effect) && u.inFlight == Some(effect) && SameStep(s, u)
    requires t in answers && At(before, t) == 0 && At(calls, t) == 1 && first == TryOf(effect, t, answers)
    requires AnswersKept(answers, after) && TriesAt(u) < 3 && (forall a :: At(before, a) <= At(between, a))
    requires ModelTold(u, acts, tries, between, calls, after, middle, ok)
    ensures ModelTold(s, first + acts, [t] + tries, before, calls, after, receipts, ok)
  {
    hide Answerable, SameStep, TriesAt;
    var all := [t] + tries;
    assert all[1..] == tries && all[|all| - 1] == tries[|tries| - 1];
    AnswerableSame(s, u, after[tries[|tries| - 1]]);
    assert Tries(effect, all, after) == first + Tries(effect, tries, after);
  }

  // ----- what a request records -----

  /** Equal but for inputs, deliveries, revision and derived usage. */
  predicate SameWork(s: State, t: State) {
    s.Run? && t.Run? && t.phase == s.phase && t.step == s.step && t.tool == s.tool && t.action == s.action
  }

  /** The delivery that comes before the model's next step. */
  function Delivery(s: State, turnId: Id): seq<Event> {
    if s.Run? && s.phase == Executing(ModelReady) && NextInput(s).Some?
    then [InputDelivered(NextInput(s).value.messageId, turnId)] else []
  }

  /** The approval that is used before its command is requested. */
  function Consumption(s: State): seq<Event> {
    if s.Run? && s.phase == Executing(ConsumeReady) && s.action.Some? then [ApprovalConsumed(s.action.value)] else []
  }

  /** The effect a run asks for next, once its approval is used; a preparation names this revision. */
  function NextEffect(s: State, revision: nat): Option<Effect> {
    if !s.Run? then None
    else if s.phase == Executing(ModelReady) && 1 <= s.step <= 12 then Some(ModelStep(s.step))
    else if s.phase == Executing(ToolReady) && s.tool.Some? then Some(ReadTool(s.tool.value.callId))
    else if s.phase == Executing(PrepareReady) && s.tool.Some? then Some(PrepareCommand(s.tool.value.callId, revision))
    else if (s.phase == Executing(ConsumeReady) || s.phase == Executing(ActionReady)) && s.action.Some?
    then Some(RunCommand(s.action.value))
    else None
  }

  /** The effect asked for is recorded; a preparation is for the revision after two more records. Only an input accepted in
      between can stop one, and only a preparation. */
  predicate AskedAs(s: State, t: State, acts: seq<Event>, requested: Option<Effect>) {
    if requested.Some? then
      t.Run? && requested == NextEffect(s, t.revision + 2) && acts == [EffectRequested(requested.value)]
    else acts == [] && (NextEffect(s, 0).None? || (NextEffect(s, 0).value.PrepareCommand? && InputCount(t) > InputCount(s)))
  }

  /** What requesting the next effect records, inputs aside: the delivery or the approval, and the effect. */
  predicate RequestedAs(s: State, t: State, acts: seq<Event>, requested: Option<Effect>, turnId: Id) {
    var before := Delivery(s, turnId) + Consumption(s);
    before <= acts && AskedAs(s, t, acts[|before|..], requested)
  }

  lemma AskedOn(s: State, u: State, t: State, before: seq<Event>, acts: seq<Event>, requested: Option<Effect>, turnId: Id)
    requires AskedAs(u, t, acts, requested) && before == Delivery(s, turnId) + Consumption(s)
    requires (s.Run? <==> u.Run?) && (s.Run? ==> Consumed(s, u)) && InputCount(u) >= InputCount(s)
    ensures RequestedAs(s, t, before + acts, requested, turnId)
  {
    hide Delivery, Consumption;
    assert (before + acts)[|before|..] == acts;
  }

  lemma DeliveryMoves(s: State, messageId: Id, turnId: Id, next: State)
    requires s.Run? && s.phase == Executing(ModelReady) && NextInput(s).Some? && messageId == NextInput(s).value.messageId
    ensures var e := InputDelivered(messageId, turnId);
            && Reduce(s, e).Some? && Bounded(e)
            && (With(next, ZERO) == With(Reduce(s, e).value, ZERO) ==>
                  SameWork(s, next) && InputCount(next) == InputCount(s) && next.Run?)
  {
    hide NextInput;
  }

  lemma ConsumptionMoves(s: State, next: State)
    requires s.Run? && s.phase == Executing(ConsumeReady) && s.action.Some?
    ensures var e := ApprovalConsumed(s.action.value);
            && Reduce(s, e).Some? && Bounded(e)
            && (With(next, ZERO) == With(Reduce(s, e).value, ZERO) ==>
                  Consumed(s, next) && InputCount(next) == InputCount(s) && next.Run?)
  {
  }

  /** The approval, if there was one, was used. */
  predicate Consumed(s: State, t: State) {
    s.Run? && t.Run? && SameWork(s.(phase := if s.phase == Executing(ConsumeReady) then Executing(ActionReady) else s.phase), t)
  }

  lemma NotRunning(s: State)
    ensures !s.Run? ==> Decide(s).None? && Consumption(s) == [] && NextEffect(s, 0).None?
  {
  }

  lemma NotConsumingNow(s: State, t: State)
    requires Consumed(s, t)
    ensures t.Run? && t.phase != Executing(ConsumeReady)
  {
  }

  lemma WorkOn(file: seq<Record>, s: State, later: seq<Record>, t: State)
    requires Meanwhile(file, s, later, t)
    ensures s.Run? == t.Run? && (s.Run? ==> SameWork(s, t)) && InputCount(t) >= InputCount(s)
  {
  }

  lemma WorkJoins(s: State, t: State, u: State)
    ensures SameWork(s, t) && SameWork(t, u) ==> SameWork(s, u)
    ensures SameWork(s, t) && Consumed(t, u) ==> Consumed(s, u)
    ensures Consumed(s, t) && SameWork(t, u) ==> Consumed(s, u)
    ensures SameWork(s, t) ==> Consumption(s) == Consumption(t)
  {
  }

  lemma NotConsuming(s: State)
    requires s.Run? && s.phase != Executing(ConsumeReady)
    ensures Consumed(s, s) && Consumption(s) == []
  {
  }

  lemma NothingDelivered(s: State, turnId: Id)
    requires s.Run? ==> s.phase != Executing(ModelReady) || NextInput(s).None?
    ensures Delivery(s, turnId) == [] && (s.Run? ==> SameWork(s, s))
  {
  }

  /** What is decided is what is asked for. */
  lemma Decided(s: State, d: State)
    requires s.Run? && SameWork(s, d) && s.phase != Executing(ConsumeReady)
    ensures var e := NextEffect(s, d.revision + 3);
            if e.Some? then Decide(d) == e && Bounded(EffectRequested(e.value))
            else Decide(d).Some? ==> !Bounded(EffectRequested(Decide(d).value))
    ensures NextEffect(s, d.revision + 3).None? == NextEffect(s, 0).None?
    ensures NextEffect(s, 0).Some? ==> NextEffect(s, 0).value.PrepareCommand? == NextEffect(s, d.revision + 3).value.PrepareCommand?
    ensures forall r: nat :: NextEffect(s, 0).Some? && !NextEffect(s, 0).value.PrepareCommand? ==> NextEffect(s, r) == NextEffect(s, 0)
  {
  }

  lemma RequestTaken(d: State, c: State, file: seq<Record>, later: seq<Record>, effect: Effect)
    requires Decide(d) == Some(effect) && Meanwhile(file, d, later, c)
    ensures Reduce(c, EffectRequested(effect)).Some? || (effect.PrepareCommand? && InputCount(c) > InputCount(d))
    ensures Reduce(c, EffectRequested(effect)).Some? && effect.PrepareCommand? ==> c.revision == d.revision
  {
  }

  lemma RequestRevision(s: State, effect: Effect, next: State)
    requires Reduce(s, EffectRequested(effect)).Some?
    requires With(next, ZERO) == With(Reduce(s, EffectRequested(effect)).value, ZERO)
    ensures s.Run? && next.Run? && next.revision == s.revision + 1 && InputCount(next) == InputCount(s)
  {
  }

  lemma NothingAsked(s: State, t: State)
    requires Decide(s).None? && (s.Run? ==> s.phase != Executing(ConsumeReady))
    ensures AskedAs(s, t, [], None)
  {
    hide Decide, NextEffect, Bounded;
    if s.Run? { Decided(s, s); } else { NotRunning(s); }
  }

  lemma AskedFor(s: State, c: State, t: State, file: seq<Record>, later: seq<Record>, effect: Effect)
    requires Decide(s) == Some(effect) && Meanwhile(file, s, later, c) && (s.Run? ==> s.phase != Executing(ConsumeReady))
    ensures Reduce(c, EffectRequested(effect)).Some? && Bounded(EffectRequested(effect))
            && With(t, ZERO) == With(Reduce(c, EffectRequested(effect)).value, ZERO) ==>
              AskedAs(s, t, [EffectRequested(effect)], Some(effect))
    ensures !(Reduce(c, EffectRequested(effect)).Some? && Bounded(EffectRequested(effect))) && t == c ==>
              AskedAs(s, t, [], None)
  {
    hide Decide, NextEffect, Bounded, Reduce, With, Meanwhile;
    NotRunning(s);
    Decided(s, s);
    WorkOn(file, s, later, c);
    RequestTaken(s, c, file, later, effect);
    if Reduce(c, EffectRequested(effect)).Some? && With(t, ZERO) == With(Reduce(c, EffectRequested(effect)).value, ZERO) {
      RequestRevision(c, effect, t);
    }
  }

  datatype OpenError = BadRecords | IllegalTransition | GrantExceeded | PlainCeiling
  datatype Reconciled = Completed(observation: Event) | NotStartedYet | UnknownOutcome

  /** What the hosts may answer when asked what became of an effect. */
  predicate Reconcilable(effect: Effect, dispatchStarted: bool, r: Reconciled, reliable: bool) {
    && (effect.RunCommand? ==> r == if dispatchStarted then UnknownOutcome else NotStartedYet)
    && (effect.PrepareCommand? ==> r.NotStartedYet?)
    && (r.Completed? ==> r.observation.ReadCompleted? && r.observation.effect == effect)
    && (reliable && effect.ReadTool? ==> !r.UnknownOutcome?)
  }
}
