/** Whether the model steps that are left are enough for every input that was accepted (reducer.ts, runtime.ts). */
module StepBudget {
  import opened Results
  import opened Kernel
  import opened KernelFacts
  import opened InputLedger
  import opened RuntimeJournal
  import opened Reservations

  predicate InAttempt(p: Phase) {
    p == Executing(AwaitingAttempt) || p == Executing(ModelInFlight)
  }

  /** The steps a run takes if its model only answers from now on: one for each pending input, and one more for the
      step in progress or, if no input can be delivered to it, for the next one. */
  function Needs(s: State): nat
    requires s.Run?
  {
    |Pending(s.inputs)| + if InAttempt(s.phase) || NextInput(s).None? then 1 else 0
  }

  /** They fit the grant. */
  predicate Enough(s: State) {
    s.Run? && s.budget.Some? && !s.phase.Terminal? ==> Needs(s) <= Left(s)
  }

  /** There is a step for the record, besides those of the pending inputs: an input needs two steps more than inputs were
      pending, unless it or an earlier one is delivered before the next step; so does a step that calls tools; a step is
      requested only if it fits. */
  predicate Room(s: State, e: Event)
    requires Reduce(s, e).Some?
  {
    var after := Reduce(s, e).value;
    s.Run? && after.Run? && s.budget.Some? && after.budget.Some? && !after.phase.Terminal? ==>
      var pending := |Pending(s.inputs)|;
      match e
      case InputAccepted(_, _, _, mode, _, _) =>
        pending + 2 <= Left(s) || (!InAttempt(s.phase) && (mode.Steer? || NextInput(s).Some? || s.queueReady))
      case EffectRequested(ModelStep(_)) => pending + 1 <= Left(s)
      case StepCompleted(_, o) => o.Finished? && o.calls != [] ==> pending + 2 <= Left(s) || NextInput(s).Some?
      case _ => true
  }

  // ----- one record -----

  lemma AcceptNeeds(s: State, e: Event)
    requires s.Run? && e.InputAccepted? && Reduce(s, e).Some?
    ensures var after := Reduce(s, e).value;
            && after.Run? && after.budget == s.budget && after.phase == s.phase && s.budget.Some?
            && |Pending(after.inputs)| == |Pending(s.inputs)| + 1 <= Left(s)
            && (NextInput(after).Some? <==> e.mode.Steer? || NextInput(s).Some? || s.queueReady)
  {
    hide Known, TotalBytes;
    Joins(s.inputs, InputOf(e));
  }

  lemma DeliverNeeds(s: State, e: Event)
    requires s.Run? && e.InputDelivered? && Reduce(s, e).Some? && LedgerOk(s.inputs)
    ensures var after := Reduce(s, e).value;
            && after.Run? && after.budget == s.budget && after.phase == s.phase == Executing(ModelReady) && NextInput(s).Some?
            && |Pending(after.inputs)| == |Pending(s.inputs)| - 1
  {
    ProjectedDistinct(s.inputs);
    DeliverOne(s, e);
  }

  /** What a completed attempt changes. */
  lemma StepNeeds(s: State, e: Event)
    requires s.Run? && e.StepCompleted? && Reduce(s, e).Some? && Bounded(e)
    requires !Reduce(s, e).value.phase.Terminal? && Reduce(s, e).value.budget.Some?
    ensures var (after, o) := (Reduce(s, e).value, e.observation);
            && s.budget.Some? && s.phase == Executing(ModelInFlight) && after.inputs == s.inputs
            && Left(after) == Left(s) - (if o.Finished? then 1 else 0)
            && (!o.Finished? ==> InAttempt(after.phase))
            && (o.Finished? ==> !InAttempt(after.phase))
            && (o.Finished? && o.calls == [] ==> after.queueReady && Pending(s.inputs) != [])
            && (o.Finished? && o.calls != [] ==> after.queueReady == s.queueReady)
  {
    hide Pending, CloseAll, DeclaredBytes, ToolsExceeded, Proposals;
  }

  /** Everything else leaves inputs and budget alone, and only a request begins an attempt. */
  lemma OthersNeed(s: State, e: Event)
    requires s.Run? && Reduce(s, e).Some? && InStep(s) && s.budget.Some?
    requires !e.StepCompleted? && !e.InputAccepted? && !e.InputDelivered? && !Reduce(s, e).value.phase.Terminal?
    ensures var after := Reduce(s, e).value;
            && after.inputs == s.inputs && after.queueReady == s.queueReady
            && (after.budget.Some? ==> Left(after) == Left(s))
            && InAttempt(after.phase) == (InAttempt(s.phase) || (e.EffectRequested? && e.effect.ModelStep?))
            && (e.EffectRequested? && e.effect.ModelStep? ==> !InAttempt(s.phase))
  {
    hide Pending, CloseAll, JoinedBytes, DecodeChunk, OfMode, TotalBytes;
  }

  lemma SameNext(s: State, t: State)
    requires s.Run? && t.Run? && t.inputs == s.inputs && t.queueReady == s.queueReady
    ensures NextInput(t) == NextInput(s)
  {
  }

  lemma SomeNext(s: State)
    requires s.Run? && s.queueReady && Pending(s.inputs) != []
    ensures NextInput(s).Some?
  {
  }

  /** One record keeps the steps enough exactly when there was room for it. */
  lemma EnoughStep(s: State, e: Event)
    requires s.Run? && Reduce(s, e).Some? && Bounded(e) && LedgerOk(s.inputs) && InStep(s) && Enough(s)
    ensures Reduce(s, e).value.Run? && (Enough(Reduce(s, e).value) <==> Room(s, e))
  {
    hide Reduce, LedgerOk, NextInput, Pending, InStep;
    ReduceGrant(s, e);
    var after := Reduce(s, e).value;
    if after.budget.Some? && !after.phase.Terminal? {
      StillRunning(s, e);
      if e.InputAccepted? {
        AcceptNeeds(s, e);
      } else if e.InputDelivered? {
        DeliverNeeds(s, e);
      } else if e.StepCompleted? {
        StepNeeds(s, e);
        if e.observation.Finished? {
          if e.observation.calls == [] { SomeNext(after); } else { SameNext(s, after); }
        }
      } else {
        OthersNeed(s, e);
        SameNext(s, after);
      }
    }
  }

  lemma StillRunning(s: State, e: Event)
    requires s.Run? && Reduce(s, e).Some?
    ensures !s.phase.Terminal?
  {
  }

  // ----- whole runs -----

  predicate AlwaysEnough(records: seq<Record>)
    requires Replay(records).Some?
  {
    Enough(Replay(records).value) && (records != [] ==> AlwaysEnough(records[..|records| - 1]))
  }

  predicate AlwaysRoom(records: seq<Record>)
    requires Replay(records).Some?
  {
    records != [] ==>
      var front := records[..|records| - 1];
      AlwaysRoom(front) && Room(Replay(front).value, records[|records| - 1].event)
  }

  /** In every run of records the journal accepts, the steps left are enough for every accepted input throughout exactly when
      there was room for every record. */
  lemma {:induction false} EnoughIffRoom(records: seq<Record>)
    requires Replay(records).Some? && forall k :: 0 <= k < |records| ==> Bounded(records[k].event)
    ensures InStep(Replay(records).value) && (AlwaysEnough(records) <==> AlwaysRoom(records))
  {
    if records != [] {
      hide Reduce, LedgerOk, InStep, Enough, Room, Bounded;
      var front, e := records[..|records| - 1], records[|records| - 1].event;
      EnoughIffRoom(front);
      ReplayedState(front);
      var s := Replay(front).value;
      ReduceInStep(s, e);
      if s.Idle? {
        StartsEnough(e);
      } else if AlwaysEnough(front) {
        EnoughStep(s, e);
      }
    } else {
      IdleInStep();
    }
  }

  lemma IdleInStep()
    ensures InStep(Idle) && Enough(Idle)
  {
  }

  lemma StartsEnough(e: Event)
    requires Reduce(Idle, e).Some? && Bounded(e)
    ensures Enough(Reduce(Idle, e).value) && Room(Idle, e) && Enough(Idle)
  {
  }

  /** While a step is in progress and only the reserved ones are left beyond it, the kernel still accepts an input, which
      reserves the step in progress; then the steps are not enough. */
  lemma StepInProgressReserved(s: State, e: Event)
    requires Fitting(s, e) && InAttempt(s.phase) && InStep(s) && Left(s) == |Pending(s.inputs)| + 1
    ensures Enough(s) && e.step == s.step
    ensures Reduce(s, e).Some? && !Enough(Reduce(s, e).value)
  {
    hide LedgerOk, Known, Pending, OfMode, TotalBytes, NextInput;
    Accepts(s, e);
    AcceptNeeds(s, e);
  }

  // ----- what enough steps are enough for -----

  /** Every attempt was for an earlier step, and has an id below this one. */
  predicate Behind(attempts: seq<Attempt>, step: nat, first: Id) {
    forall k :: 0 <= k < |attempts| ==> attempts[k].step < step && attempts[k].attemptId < first
  }

  lemma {:induction false} NoneAt(attempts: seq<Attempt>, step: nat)
    requires forall k :: 0 <= k < |attempts| ==> attempts[k].step < step
    ensures AttemptsAt(attempts, step) == 0
  {
    if attempts != [] { NoneAt(attempts[..|attempts| - 1], step); }
  }

  /** A budgeted run before a step, whose tool budget is not overdrawn. */
  predicate Waiting(s: State, first: Id) {
    && s.Run? && s.phase == Executing(ModelReady) && s.budget.Some? && InStep(s) && LedgerOk(s.inputs)
    && !ToolsExceeded(s.budget.value, []) && Behind(s.attempts, s.step, first)
  }

  /** The runtime's next step, which the model answers: a deliverable input first, then the attempt. */
  function Round(s: State, attemptId: Id): seq<Event>
    requires s.Run?
  {
    var step := ModelStep(s.step);
    (if NextInput(s).Some? then [InputDelivered(NextInput(s).value.messageId, 0)] else [])
    + [EffectRequested(step), AttemptStarted(attemptId, step), StepCompleted(step, Finished(attemptId, true, true, []))]
  }

  /** Inputs were only delivered. */
  predicate Handed(before: seq<Input>, after: seq<Input>) {
    && |before| == |after|
    && forall k :: 0 <= k < |before| ==> after[k] == before[k] || (before[k].state.Accepted? && after[k].state.Delivered?)
  }

  /** The first part of a round. */
  function Handing(s: State): State
    requires s.Run?
  {
    if NextInput(s).None? then s
    else s.(inputs := Deliver(s.inputs, NextInput(s).value.messageId, 0), queueReady := false,
            talk := s.talk + [Asked(NextInput(s).value.messageId)], revision := s.revision + 1)
  }

  lemma HandingRuns(s: State, first: Id)
    requires Waiting(s, first) && NextInput(s).Some?
    ensures Reduce(s, InputDelivered(NextInput(s).value.messageId, 0)) == Some(Handing(s))
    ensures Waiting(Handing(s), first) && Handed(s.inputs, Handing(s).inputs)
    ensures |Pending(Handing(s).inputs)| == |Pending(s.inputs)| - 1
  {
    hide LedgerOk, NextInput, Pending, Behind, ToolsExceeded;
    var d := InputDelivered(NextInput(s).value.messageId, 0);
    DeliverNeeds(s, d);
    DeliverKeeps(s.inputs, d.messageId, 0);
  }

  /** The state before the attempt's outcome. */
  function Attempting(s: State, attemptId: Id): (t: State)
    requires s.Run?
    ensures t.Run?
  {
    s.(inFlight := Some(ModelStep(s.step)), revision := s.revision + 2, phase := Executing(ModelInFlight),
       attempts := s.attempts + [Attempt(attemptId, s.step, None)])
  }

  lemma AttemptingRuns(s: State, attemptId: Id)
    requires Waiting(s, attemptId)
    ensures var one := s.(inFlight := Some(ModelStep(s.step)), revision := s.revision + 1, phase := Executing(AwaitingAttempt));
            && Reduce(s, EffectRequested(ModelStep(s.step))) == Some(one)
            && Reduce(one, AttemptStarted(attemptId, ModelStep(s.step))) == Some(Attempting(s, attemptId))
  {
    hide LedgerOk, ToolsExceeded;
    NoneAt(s.attempts, s.step);
  }

  /** An answer ends the run, or leaves it waiting for the next delivery, or overdraws the steps. */
  lemma AnswerRuns(s: State, attemptId: Id)
    requires Waiting(s, attemptId)
    ensures var e := StepCompleted(ModelStep(s.step), Finished(attemptId, true, true, []));
            var t := Reduce(Attempting(s, attemptId), e);
            && t.Some? && t.value.Run?
            && (Left(s) <= 0 ==> t.value.phase == Terminal(Blocked))
            && (Left(s) > 0 && Pending(s.inputs) == [] ==> t.value.phase == Terminal(Answered) && t.value.inputs == CloseAll(s.inputs))
            && (Left(s) > 0 && Pending(s.inputs) != [] ==>
                  && Waiting(t.value, attemptId + 1) && t.value.inputs == s.inputs && t.value.queueReady && Left(t.value) == Left(s) - 1)
  {
    hide LedgerOk, Pending, CloseAll;
    assert Proposals([]) == 0 && DeclaredBytes([]) == 0;
    var two := Attempting(s, attemptId);
    assert two.attempts[|two.attempts| - 1] == Attempt(attemptId, s.step, None);
  }

  lemma RoundIs(s: State, attemptId: Id)
    requires Waiting(s, attemptId)
    ensures After(s, Round(s, attemptId))
            == Reduce(Attempting(Handing(s), attemptId), StepCompleted(ModelStep(s.step), Finished(attemptId, true, true, [])))
  {
    hide Reduce, NextInput, LedgerOk, ToolsExceeded, Behind, InStep;
    var deliver := if NextInput(s).Some? then [InputDelivered(NextInput(s).value.messageId, 0)] else [];
    var step := ModelStep(s.step);
    var rest := [EffectRequested(step), AttemptStarted(attemptId, step), StepCompleted(step, Finished(attemptId, true, true, []))];
    AfterBoth(s, deliver, rest);
    if NextInput(s).Some? {
      HandingRuns(s, attemptId);
      assert deliver[..0] == [];
    }
    var d := Handing(s);
    AttemptingRuns(d, attemptId);
    assert rest[..0] == [] && rest[..3] == rest;
    AfterStep(d, rest, 0);
    AfterStep(d, rest, 1);
    AfterStep(d, rest, 2);
  }

  /** The model answers this many steps in a row. */
  function Answering(s: State, first: Id, rounds: nat): Option<State>
    decreases rounds
  {
    if rounds == 0 || !s.Run? then Some(s)
    else
      var next := After(s, Round(s, first));
      if next.None? then None else Answering(next.value, first + 1, rounds - 1)
  }

  lemma {:induction false} NonePending(inputs: seq<Input>)
    requires Pending(inputs) == []
    ensures CloseAll(inputs) == inputs && forall k :: 0 <= k < |inputs| ==> !inputs[k].state.Accepted?
  {
    if inputs != [] {
      NonePending(inputs[..|inputs| - 1]);
    }
  }

  /** If the steps are enough, a model that only answers is given every pending input and answers it, and the run
      ends as answered; if not, the run is blocked before. */
  lemma {:induction false} AnswersServeEveryInput(s: State, first: Id)
    requires Waiting(s, first)
    ensures Enough(s) ==>
              var end := Answering(s, first, Needs(s));
              && end.Some? && end.value.Run? && end.value.phase == Terminal(Answered)
              && |end.value.inputs| == |s.inputs|
              && forall k :: 0 <= k < |s.inputs| ==>
                   if s.inputs[k].state.Accepted? then end.value.inputs[k].state.Delivered? else end.value.inputs[k] == s.inputs[k]
    ensures !Enough(s) ==>
              var end := Answering(s, first, if Left(s) < 0 then 1 else Left(s) + 1);
              end.Some? && end.value.Run? && end.value.phase == Terminal(Blocked)
    decreases |Pending(s.inputs)|, if NextInput(s).Some? then 0 else 1
  {
    hide Reduce, Waiting, NextInput, Pending, CloseAll, After, Round, Deliver;
    RoundIs(s, first);
    WaitingFacts(s, first);
    var d := Handing(s);
    if NextInput(s).Some? { HandingRuns(s, first); }
    WaitingFacts(d, first);
    AnswerRuns(d, first);
    var t := After(s, Round(s, first)).value;
    if Left(s) > 0 {
      if Pending(d.inputs) == [] {
        NonePending(d.inputs);
      } else {
        WaitingFacts(t, first + 1);
        SomeNext(t);
        AnswersServeEveryInput(t, first + 1);
        assert Needs(t) == Needs(s) - 1 && Left(t) == Left(s) - 1;
      }
    }
  }

  lemma WaitingFacts(s: State, first: Id)
    requires Waiting(s, first)
    ensures s.Run? && s.budget.Some? && s.phase == Executing(ModelReady)
    ensures NextInput(s).Some? ==> Pending(s.inputs) != []
  {
    OfModeAmong(Pending(s.inputs), Steer);
  }
}
