/** The run journal: what replaying it gives, and what a journal the runtime wrote looks like
    (runtime.ts, replay.ts, journal/file-journal.ts). */
module RuntimeJournal {
  import opened Results
  import opened Kernel
  import opened KernelFacts

  const RECORD_LIMIT := 4_096
  const RECORD_BYTES := 65_536
  /** journalByteLimit: the ceiling of a run without a coding budget. */
  const PLAIN_JOURNAL_BYTES := 1_048_576

  /** What the command decoder and run start guarantee of a journal's records. */
  predicate FromClient(e: Event) {
    && (e.InputAccepted? ==> 1 <= e.bytes <= 4_096)
    && (e.RunStarted? && e.grant.Some? ==> e.grant.value.modelSteps <= 12)
  }

  /** The ranges of the event schema, against which a record is decoded before it is written and when it is read. */
  predicate Bounded(e: Event) {
    FromClient(e) &&
    match e
    case RunStarted(grant) => grant.Some? ==> 1 <= grant.value.modelSteps
    case InputAccepted(_, _, _, _, step, order) => 1 <= step <= 12 && order <= 7
    case EffectRequested(ModelStep(step)) => 1 <= step <= 12
    case StepCompleted(_, o) => o.Finished? ==> |o.calls| <= 4 && (o.stop <==> o.calls == [])
    case CommandOutput(_, _, index, byteLength, content) => index <= 7 && 1 <= byteLength <= 8_192 && |content| == byteLength
    case CommandCompleted(_, r) =>
      r.stdoutBytes <= 65_536 && r.stderrBytes <= 65_536 && (r.exitCode.Some? ==> r.exitCode.value <= 255)
    case _ => true
  }

  /** `at` is the recorded time in milliseconds and `size` the length of the encoded line. */
  datatype Record = Record(sequence: nat, eventId: Id, at: int, size: nat, event: Event)

  /** replayRecords; None for an illegal transition. */
  function Replay(records: seq<Record>): Option<State> {
    if records == [] then Some(Idle)
    else
      var before := Replay(records[..|records| - 1]);
      if before.None? then None else Reduce(before.value, records[|records| - 1].event)
  }

  function Bytes(records: seq<Record>): nat {
    if records == [] then 0 else Bytes(records[..|records| - 1]) + records[|records| - 1].size
  }

  function Elapsed(from: int, to: int): nat {
    if to <= from then 0 else to - from
  }

  function WallTime(records: seq<Record>): nat {
    if records == [] then 0 else Elapsed(records[0].at, records[|records| - 1].at)
  }

  function DerivedOf(records: seq<Record>): Derived {
    Derived(Bytes(records), |records|, WallTime(records))
  }

  predicate Budgeted(s: State) {
    s.Run? && s.budget.Some?
  }

  predicate WithinGrant(s: State, d: Derived) {
    Budgeted(s) ==>
      && d.journalBytes <= s.budget.value.grant.journalBytes && d.journalRecords <= s.budget.value.grant.journalRecords
      && d.wallTimeMs <= s.budget.value.grant.wallTimeMs
  }

  /** The journal is dense, replays, and is within its grant. */
  predicate Sound(records: seq<Record>) {
    && (records != [] ==> records[|records| - 1].sequence == |records| - 1)
    && Replay(records).Some? && WithinGrant(Replay(records).value, DerivedOf(records))
  }

  /** What the runtime's own commits build: sound after every commit. */
  predicate Written(records: seq<Record>) {
    Sound(records) && (records != [] ==> Written(records[..|records| - 1]))
  }

  /** Stopping anywhere leaves a sound journal. */
  lemma {:induction false} WrittenPrefix(records: seq<Record>, k: nat)
    requires Written(records) && k <= |records|
    ensures Written(records[..k]) && Sound(records[..k])
  {
    if k < |records| {
      var front := records[..|records| - 1];
      assert front[..k] == records[..k];
      assert Written(front);
      WrittenPrefix(front, k);
    } else {
      assert records[..k] == records;
    }
  }

  lemma ReplayAppend(records: seq<Record>, r: Record)
    ensures Replay(records + [r]) ==
            if Replay(records).None? then None else Reduce(Replay(records).value, r.event)
    ensures Bytes(records + [r]) == Bytes(records) + r.size
    ensures WallTime(records + [r]) == if records == [] then 0 else Elapsed(records[0].at, r.at)
  {
    assert (records + [r])[..|records|] == records;
  }

  /** Replaying and then overwriting the derived figures can be done step by step. */
  lemma StepLive(s: State, e: Event, d: Derived, next: Derived)
    ensures Reduce(With(s, d), e).None? == Reduce(s, e).None?
    ensures Reduce(s, e).Some? ==>
              && With(Reduce(With(s, d), e).value, next) == With(Reduce(s, e).value, next)
              && WithinGrant(Reduce(With(s, d), e).value, next) == WithinGrant(Reduce(s, e).value, next)
  {
    ReduceBlind(s, e, d);
    if Reduce(s, e).Some? {
      var a, b := Reduce(With(s, d), e).value, Reduce(s, e).value;
      assert With(a, next) == With(With(a, ZERO), next) && With(b, next) == With(With(b, ZERO), next);
      assert WithinGrant(a, next) == WithinGrant(With(a, ZERO), next);
    }
  }

  /** Applying events one after the other. */
  function After(s: State, events: seq<Event>): Option<State> {
    if events == [] then Some(s)
    else
      var before := After(s, events[..|events| - 1]);
      if before.None? then None else Reduce(before.value, events[|events| - 1])
  }

  lemma AfterStep(s: State, events: seq<Event>, k: nat)
    requires k < |events|
    ensures After(s, events[..k + 1])
            == if After(s, events[..k]).None? then None else Reduce(After(s, events[..k]).value, events[k])
  {
    assert events[..k + 1][..k] == events[..k];
  }

  lemma {:induction false} AfterBoth(s: State, a: seq<Event>, b: seq<Event>)
    ensures After(s, a + b) == if After(s, a).None? then None else After(After(s, a).value, b)
  {
    if b == [] {
      assert a + b == a;
    } else {
      assert (a + b)[..|a + b| - 1] == a + b[..|b| - 1];
      AfterBoth(s, a, b[..|b| - 1]);
    }
  }

  // ----- invariants of every replayed state -----

  lemma {:induction false} ReplayedState(records: seq<Record>)
    requires Replay(records).Some?
    ensures Staged(Replay(records).value)
    ensures Replay(records).value.Run? ==>
              LedgerOk(Replay(records).value.inputs) && AttemptIdsDistinct(Replay(records).value.attempts)
    ensures records != [] ==> Replay(records).value.Run?
  {
    if records != [] {
      var front, e := records[..|records| - 1], records[|records| - 1].event;
      ReplayedState(front);
      var before := Replay(front).value;
      if before.Run? {
        ReduceStaged(before, e);
        ReduceLedger(before, e);
        ReduceAttempts(before, e);
      }
    }
  }

  // ----- counting records -----

  datatype Sort = Proposing | Approving | Requesting | Dispatching | Starting | Observing

  /** The record is one of this sort for this action or attempt. */
  predicate Counts(e: Event, sort: Sort, id: Id) {
    match sort
    case Proposing => e.CommandProposed? && e.actionId == id
    case Approving => e == ApprovalResolved(id, true)
    case Requesting => e == EffectRequested(RunCommand(id))
    case Dispatching => e == DispatchStarted(RunCommand(id))
    case Starting => e.AttemptStarted? && e.attemptId == id
    case Observing => e.StepCompleted? && e.observation.attemptId == id
  }

  function Count(records: seq<Record>, sort: Sort, id: Id): nat {
    if records == [] then 0
    else Count(records[..|records| - 1], sort, id) + if Counts(records[|records| - 1].event, sort, id) then 1 else 0
  }

  lemma CountAppend(records: seq<Record>, r: Record, sort: Sort, id: Id)
    ensures Count(records + [r], sort, id) == Count(records, sort, id) + if Counts(r.event, sort, id) then 1 else 0
  {
    assert (records + [r])[..|records|] == records;
  }

  /** An approval of the action has not been used to request its effect yet. */
  predicate Approved(s: State, action: Id) {
    s.Run? && (s.phase == Executing(ConsumeReady) || s.phase == Executing(ActionReady)) && s.action == Some(action)
  }

  predicate AwaitsApproval(s: State, action: Id) {
    s.Run? && s.phase == AwaitingApproval && s.action == Some(action)
  }

  predicate Undispatched(s: State, action: Id) {
    s.Run? && s.inFlight == Some(RunCommand(action)) && !s.dispatched
  }

  lemma StepApprovals(s: State, e: Event, action: Id)
    requires Reduce(s, e).Some?
    ensures var after := Reduce(s, e).value;
            && (Counts(e, Approving, action) || Approved(s, action) || !Approved(after, action))
            && (Counts(e, Requesting, action) ==> Approved(s, action) && !Approved(after, action))
  {
    hide Pending, CloseAll, JoinedBytes, DecodeChunk, Proposals, DeclaredBytes, ToolsExceeded, StepsExceeded;
  }

  lemma StepProposals(s: State, e: Event, action: Id)
    requires Reduce(s, e).Some?
    ensures var after := Reduce(s, e).value;
            && (Counts(e, Proposing, action) || AwaitsApproval(s, action) || !AwaitsApproval(after, action))
            && (Counts(e, Approving, action) ==> AwaitsApproval(s, action) && !AwaitsApproval(after, action))
  {
    hide Pending, CloseAll, JoinedBytes, DecodeChunk, Proposals, DeclaredBytes, ToolsExceeded, StepsExceeded;
  }

  lemma StepDispatches(s: State, e: Event, action: Id)
    requires Reduce(s, e).Some?
    ensures var after := Reduce(s, e).value;
            && (Counts(e, Requesting, action) || Undispatched(s, action) || !Undispatched(after, action))
            && (Counts(e, Dispatching, action) ==> Undispatched(s, action) && !Undispatched(after, action))
  {
    if s.Run? { ReduceFlight(s, e); }
  }

  /** Every recorded dispatch of a command has its own request, every request its own approval, and every approval
      its own proposal. */
  lemma {:induction false} DispatchesRequestsApprovals(records: seq<Record>, action: Id)
    requires Replay(records).Some?
    ensures var s := Replay(records).value;
            && Count(records, Dispatching, action) + (if Undispatched(s, action) then 1 else 0) <= Count(records, Requesting, action)
            && Count(records, Requesting, action) + (if Approved(s, action) then 1 else 0) <= Count(records, Approving, action)
            && Count(records, Approving, action) + (if AwaitsApproval(s, action) then 1 else 0) <= Count(records, Proposing, action)
  {
    if records != [] {
      var front := records[..|records| - 1];
      DispatchesRequestsApprovals(front, action);
      StepProposals(Replay(front).value, records[|records| - 1].event, action);
      StepApprovals(Replay(front).value, records[|records| - 1].event, action);
      StepDispatches(Replay(front).value, records[|records| - 1].event, action);
    }
  }

  predicate Attempted(s: State, id: Id) {
    s.Run? && exists k :: 0 <= k < |s.attempts| && s.attempts[k].attemptId == id
  }

  predicate Observed(s: State, id: Id) {
    s.Run? && exists k :: 0 <= k < |s.attempts| && s.attempts[k].attemptId == id && s.attempts[k].observation.Some?
  }

  lemma StepAttempts(s: State, e: Event, id: Id)
    requires s.Run? && AttemptIdsDistinct(s.attempts) && Reduce(s, e).Some?
    ensures var after := Reduce(s, e).value;
            && Attempted(after, id) == (Attempted(s, id) || Counts(e, Starting, id))
            && !(Attempted(s, id) && Counts(e, Starting, id))
            && Observed(after, id) == (Observed(s, id) || Counts(e, Observing, id))
            && !(Observed(s, id) && Counts(e, Observing, id))
            && (Observed(after, id) ==> Attempted(after, id))
  {
    hide Reduce, AttemptIdsDistinct;
    ReduceAttempts(s, e);
    var after := Reduce(s, e).value;
    if Attempted(s, id) {
      var k :| 0 <= k < |s.attempts| && s.attempts[k].attemptId == id;
      assert after.attempts[k].attemptId == id;
    }
    if Observed(s, id) {
      var k :| 0 <= k < |s.attempts| && s.attempts[k].attemptId == id && s.attempts[k].observation.Some?;
      assert after.attempts[k].attemptId == id;
    }
    if Counts(e, Starting, id) { assert after.attempts[|s.attempts|].attemptId == id; }
    if Counts(e, Observing, id) { assert after.attempts[|s.attempts| - 1].attemptId == id; }
  }

  /** An attempt id is started at most once and observed at most once, and only after it was started. */
  lemma {:induction false} AttemptsOnce(records: seq<Record>, id: Id)
    requires Replay(records).Some?
    ensures Count(records, Starting, id) == if Attempted(Replay(records).value, id) then 1 else 0
    ensures Count(records, Observing, id) == if Observed(Replay(records).value, id) then 1 else 0
    ensures Count(records, Observing, id) <= Count(records, Starting, id) <= 1
  {
    if records != [] {
      var front := records[..|records| - 1];
      AttemptsOnce(front, id);
      ReplayedState(front);
      if Replay(front).value.Run? { StepAttempts(Replay(front).value, records[|records| - 1].event, id); }
    }
  }
}
