/** When a command can be dispatched a second time: its call id is proposed again (reducer.ts, safe-actuation-host.ts). */
module CommandReruns {
  import opened Results
  import opened Kernel
  import opened KernelFacts
  import opened RuntimeJournal
  import opened EngineFacts
  import opened RunLimits
  import opened CommandOutcome

  function EventsOf(records: seq<Record>): seq<Event> {
    seq(|records|, k requires 0 <= k < |records| => records[k].event)
  }

  /** The model has asked for this command, which is to be prepared. */
  predicate Asking(s: State, call: Id) {
    s.Run? && s.phase == Executing(PrepareReady) && s.tool.Some? && s.tool.value.callId == call
  }

  /** Preparing, approving and dispatching the command that a call asks for. */
  function Approval(call: Id, revision: nat): seq<Event> {
    var prepare := PrepareCommand(call, revision + 3);
    [EffectRequested(prepare), DispatchStarted(prepare), CommandProposed(prepare, call, revision + 3),
     ApprovalResolved(call, true), ApprovalConsumed(call), EffectRequested(RunCommand(call)), DispatchStarted(RunCommand(call))]
  }

  /** The run with this much of the approval done. */
  function Prepared(s: State, call: Id): State
    requires s.Run?
  {
    s.(phase := AwaitingApproval, action := Some(call), inFlight := None, dispatched := true, revision := s.revision + 3)
  }

  lemma Preparing(s: State, call: Id)
    requires Asking(s, call)
    ensures var prepare := PrepareCommand(call, s.revision + 3);
            var one := s.(inFlight := Some(prepare), revision := s.revision + 1, phase := Executing(PrepareInFlight), dispatched := false);
            var two := one.(dispatched := true, revision := s.revision + 2);
            && Reduce(s, EffectRequested(prepare)) == Some(one) && Reduce(one, DispatchStarted(prepare)) == Some(two)
            && Reduce(two, CommandProposed(prepare, call, s.revision + 3)) == Some(Prepared(s, call))
  {
  }

  lemma Approving(t: State, call: Id)
    requires t.Run? && t.phase == AwaitingApproval && t.action == Some(call)
    ensures var one := t.(phase := Executing(ConsumeReady), dispatched := false, inFlight := None, revision := t.revision + 1);
            var two := one.(phase := Executing(ActionReady), revision := t.revision + 2);
            var three := two.(inFlight := Some(RunCommand(call)), revision := t.revision + 3, phase := Executing(ActionInFlight),
                              output := Some(Output(call, [], [])));
            && Reduce(t, ApprovalResolved(call, true)) == Some(one) && Reduce(one, ApprovalConsumed(call)) == Some(two)
            && Reduce(two, EffectRequested(RunCommand(call))) == Some(three)
            && Reduce(three, DispatchStarted(RunCommand(call))) == Some(three.(dispatched := true, revision := t.revision + 4))
  {
  }

  lemma ApprovalRuns(s: State, call: Id)
    requires Asking(s, call)
    ensures After(s, Approval(call, s.revision)).Some?
    ensures var t := After(s, Approval(call, s.revision)).value;
            t == s.(phase := Executing(ActionInFlight), inFlight := Some(RunCommand(call)), dispatched := true,
                    action := Some(call), output := Some(Output(call, [], [])), revision := s.revision + 7)
  {
    hide Reduce;
    Preparing(s, call);
    Approving(Prepared(s, call), call);
    var events := Approval(call, s.revision);
    assert events[..0] == [] && events[..7] == events;
    AfterStep(s, events, 0);
    AfterStep(s, events, 1);
    AfterStep(s, events, 2);
    AfterStep(s, events, 3);
    AfterStep(s, events, 4);
    AfterStep(s, events, 5);
    AfterStep(s, events, 6);
  }

  lemma {:induction false} ReplayMore(records: seq<Record>, more: seq<Record>)
    requires Replay(records).Some?
    ensures Replay(records + more) == After(Replay(records).value, EventsOf(more))
  {
    if more == [] {
      assert records + more == records;
    } else {
      var front := more[..|more| - 1];
      ReplayMore(records, front);
      assert (records + more)[..|records + more| - 1] == records + front;
      assert EventsOf(more)[..|more| - 1] == EventsOf(front);
    }
  }

  /** Of these events, those that count. */
  function Tally(events: seq<Event>, sort: Sort, id: Id): nat {
    if events == [] then 0 else Tally(events[..|events| - 1], sort, id) + if Counts(events[|events| - 1], sort, id) then 1 else 0
  }

  lemma {:induction false} CountMore(records: seq<Record>, more: seq<Record>, sort: Sort, id: Id)
    ensures Count(records + more, sort, id) == Count(records, sort, id) + Tally(EventsOf(more), sort, id)
  {
    if more == [] {
      assert records + more == records;
    } else {
      var front := more[..|more| - 1];
      CountMore(records, front, sort, id);
      assert (records + more)[..|records + more| - 1] == records + front;
      assert EventsOf(more)[..|more| - 1] == EventsOf(front);
    }
  }

  lemma TallyStep(events: seq<Event>, k: nat, sort: Sort, id: Id)
    requires k < |events|
    ensures Tally(events[..k + 1], sort, id) == Tally(events[..k], sort, id) + if Counts(events[k], sort, id) then 1 else 0
  {
    assert events[..k + 1][..k] == events[..k];
  }

  lemma ApprovalCounts(call: Id, revision: nat)
    ensures Tally(Approval(call, revision), Dispatching, call) == 1 && Tally(Approval(call, revision), Proposing, call) == 1
  {
    var events := Approval(call, revision);
    assert events[..0] == [] && events[..7] == events;
    TallySeven(events, Dispatching, call);
    TallySeven(events, Proposing, call);
  }

  lemma TallySeven(events: seq<Event>, sort: Sort, id: Id)
    requires |events| == 7
    ensures Tally(events, sort, id) == Tally(events[..0], sort, id)
                                       + (if Counts(events[0], sort, id) then 1 else 0) + (if Counts(events[1], sort, id) then 1 else 0)
                                       + (if Counts(events[2], sort, id) then 1 else 0) + (if Counts(events[3], sort, id) then 1 else 0)
                                       + (if Counts(events[4], sort, id) then 1 else 0) + (if Counts(events[5], sort, id) then 1 else 0)
                                       + (if Counts(events[6], sort, id) then 1 else 0)
  {
    assert events[..7] == events;
    forall k: nat | k < 7
      ensures Tally(events[..k + 1], sort, id) == Tally(events[..k], sort, id) + if Counts(events[k], sort, id) then 1 else 0
    {
      TallyStep(events, k, sort, id);
    }
  }

  /** Whatever the journal holds, a command call the model makes can be approved and dispatched once more under the
      same effect id. So the command stays dispatched at most once exactly when the call was not dispatched before. */
  lemma CallDispatchesAgain(records: seq<Record>, call: Id, more: seq<Record>)
    requires Replay(records).Some? && Asking(Replay(records).value, call)
    requires EventsOf(more) == Approval(call, Replay(records).value.revision)
    ensures Replay(records + more).Some?
    ensures Count(records + more, Dispatching, call) == Count(records, Dispatching, call) + 1
    ensures Count(records + more, Proposing, call) == Count(records, Proposing, call) + 1
    ensures Count(records + more, Dispatching, call) <= 1 <==> Count(records, Dispatching, call) == 0
  {
    hide Approval, Counts;
    var s := Replay(records).value;
    ReplayMore(records, more);
    ApprovalRuns(s, call);
    CountMore(records, more, Dispatching, call);
    CountMore(records, more, Proposing, call);
    ApprovalCounts(call, s.revision);
  }

  /** The model answers its next step with this command call. */
  function Ask(call: Id, attemptId: Id, step: nat): seq<Event> {
    [EffectRequested(ModelStep(step)), AttemptStarted(attemptId, ModelStep(step)),
     StepCompleted(ModelStep(step), Finished(attemptId, false, false, [Call(Command, call)]))]
  }

  /** A plain run before a step, with room for another tool call and a new attempt id. */
  predicate Ready(s: State, attemptId: Id) {
    && s.Run? && s.phase == Executing(ModelReady) && s.budget.None? && s.step < 4 && s.tools < 4
    && AttemptsAt(s.attempts, s.step) == 0 && forall k :: 0 <= k < |s.attempts| ==> s.attempts[k].attemptId != attemptId
  }

  /** No guard compares a call with earlier ones. */
  lemma AskRuns(s: State, call: Id, attemptId: Id)
    requires Ready(s, attemptId)
    ensures After(s, Ask(call, attemptId, s.step)).Some?
    ensures var t := After(s, Ask(call, attemptId, s.step)).value;
            && Asking(t, call) && t.revision == s.revision + 3 && t.budget.None? && t.step == s.step && t.tools == s.tools + 1
            && t.tool == Some(Call(Command, call))
            && t.attempts == s.attempts + [Attempt(attemptId, s.step, Some(Finished(attemptId, false, false, [Call(Command, call)])))]
  {
    hide Reduce;
    var events := Ask(call, attemptId, s.step);
    assert events[..0] == [] && events[..3] == events;
    AskSteps(s, call, attemptId);
    AfterStep(s, events, 0);
    AfterStep(s, events, 1);
    AfterStep(s, events, 2);
  }

  function StepRequested(s: State): (t: State)
    requires s.Run?
    ensures t.Run?
  {
    s.(inFlight := Some(ModelStep(s.step)), revision := s.revision + 1, phase := Executing(AwaitingAttempt))
  }

  function StepAttempted(s: State, attemptId: Id): (t: State)
    requires s.Run?
    ensures t.Run?
  {
    s.(inFlight := Some(ModelStep(s.step)), revision := s.revision + 2, phase := Executing(ModelInFlight),
       attempts := s.attempts + [Attempt(attemptId, s.step, None)])
  }

  lemma AskSteps(s: State, call: Id, attemptId: Id)
    requires Ready(s, attemptId)
    ensures var o := Finished(attemptId, false, false, [Call(Command, call)]);
            && Reduce(s, EffectRequested(ModelStep(s.step))) == Some(StepRequested(s))
            && Reduce(StepRequested(s), AttemptStarted(attemptId, ModelStep(s.step))) == Some(StepAttempted(s, attemptId))
            && Reduce(StepAttempted(s, attemptId), StepCompleted(ModelStep(s.step), o))
               == Some(StepAttempted(s, attemptId).(attempts := s.attempts + [Attempt(attemptId, s.step, Some(o))], inFlight := None,
                                             tool := Some(Call(Command, call)), tools := s.tools + 1, talk := s.talk + [Said(false)],
                                             phase := Executing(PrepareReady), revision := s.revision + 3))
  {
    hide Pending, CloseAll;
    var two := StepAttempted(s, attemptId);
    assert two.attempts[|two.attempts| - 1 := Attempt(attemptId, s.step, Some(Finished(attemptId, false, false, [Call(Command, call)])))]
           == s.attempts + [Attempt(attemptId, s.step, Some(Finished(attemptId, false, false, [Call(Command, call)])))];
  }

  function JournalOf(events: seq<Event>): (r: seq<Record>)
    ensures |r| == |events| && EventsOf(r) == events
  {
    seq(|events|, k requires 0 <= k < |events| => Record(k, k, 0, 1, events[k]))
  }

  lemma {:induction false} JournalWritten(events: seq<Event>)
    requires After(Idle, events).Some? && (events != [] ==> events[0] == RunStarted(None))
    ensures Written(JournalOf(events)) && Replay(JournalOf(events)) == After(Idle, events)
    ensures events != [] ==> After(Idle, events).value.Run? && After(Idle, events).value.budget.None?
  {
    var records := JournalOf(events);
    ReplayMore([], records);
    assert [] + records == records;
    if events != [] {
      var front := events[..|events| - 1];
      JournalWritten(front);
      assert JournalOf(front) == records[..|records| - 1];
      if front != [] { BudgetStaysGone(After(Idle, front).value, events[|events| - 1]); }
    }
  }

  lemma {:induction false} TallyBoth(a: seq<Event>, b: seq<Event>, sort: Sort, id: Id)
    ensures Tally(a + b, sort, id) == Tally(a, sort, id) + Tally(b, sort, id)
  {
    if b == [] {
      assert a + b == a;
    } else {
      assert (a + b)[..|a + b| - 1] == a + b[..|b| - 1];
      TallyBoth(a, b[..|b| - 1], sort, id);
    }
  }

  /** The model asks for a command, and it is prepared, approved and dispatched. */
  function Commanded(call: Id, attemptId: Id, step: nat, revision: nat): seq<Event> {
    Ask(call, attemptId, step) + Approval(call, revision + 3)
  }

  function SilentEnd(call: Id): Event {
    CommandCompleted(RunCommand(call), CommandReport(true, Some(0), 0, 0, 0, 0, true, 0))
  }

  lemma CommandedRuns(s: State, call: Id, attemptId: Id)
    requires Ready(s, attemptId)
    ensures After(s, Commanded(call, attemptId, s.step, s.revision)).Some?
    ensures var t := After(s, Commanded(call, attemptId, s.step, s.revision)).value;
            && t.Run? && Commanding(t, RunCommand(call)) && t.output == Some(Output(call, [], [])) && t.budget.None?
            && t.step == s.step && t.tools == s.tools + 1 && t.revision == s.revision + 10 && t.tool == Some(Call(Command, call))
            && t.attempts == s.attempts + [Attempt(attemptId, s.step, Some(Finished(attemptId, false, false, [Call(Command, call)])))]
  {
    hide Reduce, Ask, Approval, Asking;
    AskRuns(s, call, attemptId);
    ApprovalRuns(After(s, Ask(call, attemptId, s.step)).value, call);
    AfterBoth(s, Ask(call, attemptId, s.step), Approval(call, s.revision + 3));
  }

  lemma CommandedCounts(call: Id, attemptId: Id, step: nat, revision: nat, sort: Sort)
    requires sort == Dispatching || sort == Proposing
    ensures Tally(Commanded(call, attemptId, step, revision), sort, call) == 1
  {
    ApprovalCounts(call, revision + 3);
    TallyBoth(Ask(call, attemptId, step), Approval(call, revision + 3), sort, call);
    var ask := Ask(call, attemptId, step);
    assert ask[..0] == [] && ask[..3] == ask;
    TallyStep(ask, 0, sort, call);
    TallyStep(ask, 1, sort, call);
    TallyStep(ask, 2, sort, call);
  }

  /** A model that repeats its call id. */
  function Repeated(call: Id): seq<Event> {
    [RunStarted(None)] + Commanded(call, 0, 1, 1) + [SilentEnd(call)] + Commanded(call, 1, 2, 12)
  }

  lemma RepeatedRuns(call: Id)
    ensures After(Idle, Repeated(call)).Some?
  {
    hide Commanded;
    var start := [RunStarted(None)];
    assert start[..0] == [];
    var s := After(Idle, start).value;
    AfterBoth(Idle, start, Commanded(call, 0, 1, 1));
    CommandedRuns(s, call, 0);
    var t := After(s, Commanded(call, 0, 1, 1)).value;
    SilentEndRuns(t, call);
    var u := After(t, [SilentEnd(call)]).value;
    AfterBoth(Idle, start + Commanded(call, 0, 1, 1), [SilentEnd(call)]);
    CommandedRuns(u, call, 1);
    AfterBoth(Idle, start + Commanded(call, 0, 1, 1) + [SilentEnd(call)], Commanded(call, 1, 2, 12));
  }

  lemma SilentEndRuns(t: State, call: Id)
    requires t.Run? && Commanding(t, RunCommand(call)) && t.output == Some(Output(call, [], [])) && t.budget.None?
    requires t.tool == Some(Call(Command, call)) && t.step == 1 && t.tools == 1 && t.revision == 11 && |t.attempts| == 1
    requires t.attempts[0].attemptId == 0 && t.attempts[0].step == 1
    ensures After(t, [SilentEnd(call)]).Some?
    ensures var u := After(t, [SilentEnd(call)]).value; Ready(u, 1) && u.step == 2 && u.revision == 12
  {
    assert [SilentEnd(call)][..0] == [];
    assert t.attempts[..0] == [];
    NoBytes();
  }

  lemma RepeatedBounded(call: Id)
    ensures forall k :: 0 <= k < |Repeated(call)| ==> Bounded(Repeated(call)[k])
  {
    var events := Repeated(call);
    forall k | 0 <= k < |events| ensures Bounded(events[k]) {
      assert events[k] == RunStarted(None) || events[k] == SilentEnd(call)
             || events[k] in Commanded(call, 0, 1, 1) || events[k] in Commanded(call, 1, 2, 12);
      CommandedBounded(call, 0, 1, 1);
      CommandedBounded(call, 1, 2, 12);
    }
  }

  lemma CommandedBounded(call: Id, attemptId: Id, step: nat, revision: nat)
    requires 1 <= step <= 12
    ensures forall e :: e in Commanded(call, attemptId, step, revision) ==> Bounded(e)
  {
  }

  /** A journal the runtime can write in which one effect id is dispatched twice: its call id was proposed twice. */
  lemma CallRunsTwice(call: Id)
    ensures Written(JournalOf(Repeated(call))) && ValidSequence(JournalOf(Repeated(call)))
    ensures forall k :: 0 <= k < |Repeated(call)| ==> Bounded(Repeated(call)[k])
    ensures Count(JournalOf(Repeated(call)), Proposing, call) == 2
    ensures Count(JournalOf(Repeated(call)), Dispatching, call) == 2
  {
    hide Commanded, Written, Replay, After;
    RepeatedRuns(call);
    RepeatedBounded(call);
    JournalWritten(Repeated(call));
    TwoOf(call, Proposing);
    TwoOf(call, Dispatching);
  }

  lemma NotCounted(call: Id, sort: Sort)
    requires sort == Dispatching || sort == Proposing
    ensures Tally([RunStarted(None)], sort, call) == 0 && Tally([SilentEnd(call)], sort, call) == 0
  {
    assert [RunStarted(None)][..0] == [] && [SilentEnd(call)][..0] == [];
  }

  lemma TwoOf(call: Id, sort: Sort)
    requires sort == Dispatching || sort == Proposing
    ensures Count(JournalOf(Repeated(call)), sort, call) == 2
  {
    hide Commanded, Tally, Counts, SilentEnd;
    var start, one, two := [RunStarted(None)], Commanded(call, 0, 1, 1), Commanded(call, 1, 2, 12);
    NotCounted(call, sort);
    assert Count([], sort, call) == 0;
    CommandedCounts(call, 0, 1, 1, sort);
    CommandedCounts(call, 1, 2, 12, sort);
    TallyBoth(start, one, sort, call);
    TallyBoth(start + one, [SilentEnd(call)], sort, call);
    TallyBoth(start + one + [SilentEnd(call)], two, sort, call);
    CountMore([], JournalOf(Repeated(call)), sort, call);
    assert [] + JournalOf(Repeated(call)) == JournalOf(Repeated(call));
  }
}
