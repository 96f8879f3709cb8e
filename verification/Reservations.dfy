/** The model steps that pending inputs reserve (reducer.ts, runtime.ts). */
module Reservations {
  import opened Results
  import opened Kernel
  import opened KernelFacts
  import opened InputLedger
  import opened RuntimeJournal

  function Left(s: State): int
    requires s.Run? && s.budget.Some?
  {
    s.budget.value.grant.modelSteps - s.budget.value.usage.modelSteps
  }

  /** Every pending input still has a model step of its own. */
  predicate Covered(s: State) {
    s.Run? && s.budget.Some? ==> |Pending(s.inputs)| <= Left(s)
  }

  predicate BeforeStep(p: Phase) {
    p == Executing(ModelReady) || p == Executing(AwaitingAttempt) || p == Executing(ModelInFlight)
  }

  /** The step number and the steps spent move together. */
  predicate InStep(s: State) {
    s.Run? && s.budget.Some? && !s.phase.Terminal? ==>
      && s.phase != AwaitingRetry
      && s.step == s.budget.value.usage.modelSteps + if BeforeStep(s.phase) then 1 else 0
  }

  lemma FinishInStep(s: State, o: Observation)
    requires s.Run? && o.Finished? && Finish(s, o).Some? && InStep(s) && s.phase == Executing(ModelInFlight)
    ensures InStep(Finish(s, o).value)
  {
  }

  lemma CompleteStepInStep(s: State, e: Event)
    requires s.Run? && e.StepCompleted? && InStep(s) && CompleteStep(s, e).Some?
    ensures InStep(CompleteStep(s, e).value)
  {
    hide Finish;
    var at := |s.attempts| - 1;
    var observed := s.(attempts := s.attempts[at := s.attempts[at].(observation := Some(e.observation))]);
    if e.observation.Finished? { FinishInStep(observed, e.observation); }
  }

  lemma ReduceInStep(s: State, e: Event)
    requires InStep(s) && Reduce(s, e).Some?
    ensures InStep(Reduce(s, e).value)
  {
    hide CompleteStep, CloseAll, JoinedBytes, DecodeChunk;
    if s.Run? && e.StepCompleted? { CompleteStepInStep(s, e); }
  }

  // ----- accepting and delivering -----

  lemma AcceptCovered(s: State, e: Event)
    requires s.Run? && e.InputAccepted? && LedgerOk(s.inputs) && AcceptInput(s, e).Some?
    ensures Covered(AcceptInput(s, e).value)
    ensures |Pending(AcceptInput(s, e).value.inputs)| == |Pending(s.inputs)| + 1
  {
    AcceptKeeps(s, e);
  }

  predicate Has(inputs: seq<Input>, messageId: Id) {
    exists k :: 0 <= k < |inputs| && inputs[k].messageId == messageId
  }

  lemma {:induction false} WithoutAbsent(inputs: seq<Input>, messageId: Id)
    requires !Has(inputs, messageId)
    ensures Without(inputs, messageId) == inputs
  {
    if inputs != [] {
      var front := inputs[..|inputs| - 1];
      assert forall k :: 0 <= k < |front| ==> front[k] == inputs[k];
      WithoutAbsent(front, messageId);
      assert inputs[|inputs| - 1].messageId != messageId;
    }
  }

  lemma {:induction false} WithoutOne(inputs: seq<Input>, messageId: Id)
    requires Distinct(inputs) && Has(inputs, messageId)
    ensures |Without(inputs, messageId)| == |inputs| - 1
  {
    var front, last := inputs[..|inputs| - 1], inputs[|inputs| - 1];
    if last.messageId == messageId {
      assert !Has(front, messageId);
      WithoutAbsent(front, messageId);
    } else {
      var k :| 0 <= k < |inputs| && inputs[k].messageId == messageId;
      assert front[k] == inputs[k];
      WithoutOne(front, messageId);
    }
  }

  lemma {:induction false} OfModeAmong(inputs: seq<Input>, mode: Mode)
    ensures forall k :: 0 <= k < |OfMode(inputs, mode)| ==> Has(inputs, OfMode(inputs, mode)[k].messageId)
  {
    if inputs != [] {
      var front := inputs[..|inputs| - 1];
      OfModeAmong(front, mode);
      forall m | Has(front, m) ensures Has(inputs, m) {
        var k :| 0 <= k < |front| && front[k].messageId == m;
        assert inputs[k].messageId == m;
      }
      assert Has(inputs, inputs[|inputs| - 1].messageId);
    }
  }

  /** A delivery takes exactly one input out of the pending ones. */
  lemma DeliverOne(s: State, e: Event)
    requires s.Run? && e.InputDelivered? && DeliverInput(s, e).Some? && Distinct(Pending(s.inputs))
    ensures |Pending(DeliverInput(s, e).value.inputs)| == |Pending(s.inputs)| - 1
  {
    var pending := Pending(s.inputs);
    DeliverPending(s.inputs, e.messageId, e.turnId);
    OfModeAmong(pending, Steer);
    assert Has(pending, e.messageId);
    WithoutOne(pending, e.messageId);
  }

  // ----- spending a step -----

  /** The runtime offers the model tools for its next attempt. */
  predicate ToolsEnabled(s: State)
    requires s.Run?
  {
    s.budget.Some? ==> s.step < s.budget.value.grant.modelSteps - |Pending(s.inputs)|
  }

  predicate ToolStep(s: State, e: Event) {
    && s.Run? && s.budget.Some? && e.StepCompleted? && e.observation.Finished? && e.observation.calls != []
    && !e.observation.stop && Reduce(s, e).Some? && !Reduce(s, e).value.phase.Terminal?
  }

  /** A step that calls a tool leaves every pending input its reserved step exactly when the inputs pending at
      its completion, with the step itself, fit the grant. */
  lemma ToolStepCovered(s: State, e: Event)
    requires ToolStep(s, e) && InStep(s)
    ensures Reduce(s, e).value.budget.Some? && Reduce(s, e).value.inputs == s.inputs
    ensures Covered(Reduce(s, e).value) <==> s.step + |Pending(s.inputs)| <= s.budget.value.grant.modelSteps
  {
  }

  /** So a model that calls tools only when they are offered never spends a reserved step, if at most one
      input arrives while its attempt is in flight. */
  lemma OneInputInFlightIsCovered(asked: State, s: State, e: Event)
    requires asked.Run? && ToolsEnabled(asked) && ToolStep(s, e) && InStep(s)
    requires s.step == asked.step && asked.budget.Some? && asked.budget.value.grant == s.budget.value.grant
    requires |Pending(s.inputs)| <= |Pending(asked.inputs)| + 1
    ensures Covered(Reduce(s, e).value)
  {
    ToolStepCovered(s, e);
  }

  /** A complete answer spends a step too, but is followed by a delivery. */
  lemma AnswerThenDelivery(s: State, e: Event, d: Event)
    requires s.Run? && s.budget.Some? && Covered(s) && LedgerOk(s.inputs)
    requires e.StepCompleted? && e.observation.Finished? && e.observation.stop
    requires Reduce(s, e).Some? && !Reduce(s, e).value.phase.Terminal?
    requires d.InputDelivered? && Reduce(Reduce(s, e).value, d).Some?
    ensures Covered(Reduce(Reduce(s, e).value, d).value)
  {
    var answered := Reduce(s, e).value;
    assert answered.Run? && answered.inputs == s.inputs && answered.budget.Some? && Left(answered) == Left(s) - 1;
    ProjectedDistinct(s.inputs);
    DeliverOne(answered, d);
  }

  // ----- whole runs -----

  /** How many inputs were pending when the last attempt was recorded, which decided whether it was offered tools. */
  function PendingWhenAsked(records: seq<Record>): nat {
    if records == [] then 0
    else
      var front := records[..|records| - 1];
      var s := Replay(front);
      if records[|records| - 1].event.AttemptStarted? && s.Some? && s.value.Run? then |Pending(s.value.inputs)| else PendingWhenAsked(front)
  }

  /** How many inputs were accepted since. */
  function ArrivedSince(records: seq<Record>): nat {
    if records == [] then 0
    else
      var front, e := records[..|records| - 1], records[|records| - 1].event;
      if e.AttemptStarted? then 0 else if e.InputAccepted? then ArrivedSince(front) + 1 else ArrivedSince(front)
  }

  /** The record keeps to the offer (and to the observation schema): tools are called only where they were offered and at most one input arrived
      while the attempt was in flight; a step is requested only when no input is waiting to be delivered. */
  predicate InOrder(front: seq<Record>, e: Event)
    requires Replay(front).Some?
  {
    var s := Replay(front).value;
    s.Run? && s.budget.Some? ==>
      match e
      case StepCompleted(_, o) =>
        o.Finished? ==>
          && (o.stop <==> o.calls == [])
          && (!o.stop ==> s.step + PendingWhenAsked(front) < s.budget.value.grant.modelSteps && ArrivedSince(front) <= 1)
      case EffectRequested(ModelStep(_)) => NextInput(s).None?
      case _ => true
  }

  predicate Orderly(records: seq<Record>) {
    records == []
    || (var front := records[..|records| - 1];
        Orderly(front) && Replay(front).Some? && InOrder(front, records[|records| - 1].event))
  }

  /** An answered run owes one delivery. */
  predicate CoveredOrOwing(s: State) {
    s.Run? && s.budget.Some? && !s.phase.Terminal? ==>
      Left(s) >= 0 && |Pending(s.inputs)| <= Left(s) + if s.phase == Executing(ModelReady) && s.queueReady then 1 else 0
  }

  predicate Counted(s: State, asked: nat, since: nat) {
    s.Run? && s.phase == Executing(ModelInFlight) ==> |Pending(s.inputs)| == asked + since
  }

  lemma OtherSpends(s: State, e: Event)
    requires s.Run? && Reduce(s, e).Some? && !Reduce(s, e).value.phase.Terminal? && !e.StepCompleted?
    ensures !s.phase.Terminal?
    ensures var after := Reduce(s, e).value;
            && (after.budget.Some? ==> s.budget.Some? && Left(after) == Left(s))
            && (after.phase == Executing(ModelInFlight) ==> s.phase == Executing(ModelInFlight) || e.AttemptStarted?)
            && (e.InputAccepted? || e.InputDelivered? || after.inputs == s.inputs)
            && (e.InputDelivered? ==> s.phase == Executing(ModelReady) && after.phase == Executing(ModelReady))
            && (s.queueReady == after.queueReady || e.InputDelivered?)
            && (s.phase == Executing(ModelReady) && after.phase != Executing(ModelReady) ==> e.EffectRequested? && e.effect.ModelStep?)
  {
    hide Pending, CloseAll, JoinedBytes, DecodeChunk, OfMode, TotalBytes;
  }

  lemma StepSpends(s: State, e: Event)
    requires s.Run? && Reduce(s, e).Some? && !Reduce(s, e).value.phase.Terminal? && e.StepCompleted?
    ensures var after := Reduce(s, e).value;
            && after.inputs == s.inputs && after.phase != Executing(ModelInFlight)
            && (after.budget.Some? ==>
                  && s.budget.Some? && after.budget.value.grant == s.budget.value.grant
                  && Left(after) == Left(s) - (if e.observation.Finished? then 1 else 0)
                  && (e.observation.Finished? ==> Left(after) >= 0)
                  && (e.observation.Finished? && e.observation.stop ==>
                        (after.phase == Executing(ModelReady) && (after.queueReady || e.observation.calls != []))))
  {
    hide Pending, CloseAll, DeclaredBytes, ToolsExceeded;
  }

  lemma WaitingForStep(s: State)
    requires s.Run? && NextInput(s).None? && s.queueReady
    ensures Pending(s.inputs) == []
  {
  }

  lemma StepCovered(records: seq<Record>, e: Event)
    requires Replay(records).Some? && Replay(records).value.Run?
    requires var s := Replay(records).value;
             && LedgerOk(s.inputs) && InStep(s) && CoveredOrOwing(s) && Counted(s, PendingWhenAsked(records), ArrivedSince(records))
             && InOrder(records, e) && Reduce(s, e).Some? && !Reduce(s, e).value.phase.Terminal?
    ensures CoveredOrOwing(Reduce(Replay(records).value, e).value)
  {
    hide Reduce, Replay;
    var s := Replay(records).value;
    var after := Reduce(s, e).value;
    if e.StepCompleted? {
      StepSpends(s, e);
      InFlight(s, e);
    } else {
      OtherSpends(s, e);
      if e.InputAccepted? {
        Accepted(s, e);
      } else if e.InputDelivered? {
        Delivered(s, e);
      } else if s.queueReady && s.budget.Some? && e.EffectRequested? && e.effect.ModelStep? {
        WaitingForStep(s);
      }
    }
  }

  lemma InFlight(s: State, e: Event)
    requires s.Run? && e.StepCompleted? && Reduce(s, e).Some?
    ensures s.phase == Executing(ModelInFlight)
  {
  }

  lemma Accepted(s: State, e: Event)
    requires s.Run? && e.InputAccepted? && Reduce(s, e).Some? && LedgerOk(s.inputs)
    ensures Reduce(s, e).value.Run? && |Pending(Reduce(s, e).value.inputs)| == |Pending(s.inputs)| + 1
    ensures Covered(Reduce(s, e).value)
  {
    AcceptCovered(s, e);
  }

  lemma Delivered(s: State, e: Event)
    requires s.Run? && e.InputDelivered? && Reduce(s, e).Some? && LedgerOk(s.inputs)
    ensures Reduce(s, e).value.Run? && |Pending(Reduce(s, e).value.inputs)| == |Pending(s.inputs)| - 1
    ensures !Reduce(s, e).value.queueReady
    ensures s.queueReady || OfMode(Pending(s.inputs), Steer) != []
  {
    ProjectedDistinct(s.inputs);
    DeliverOne(s, e);
  }

  lemma CountedNext(records: seq<Record>, r: Record)
    requires Replay(records).Some? && Replay(records).value.Run? && Replay(records + [r]).Some?
    requires Counted(Replay(records).value, PendingWhenAsked(records), ArrivedSince(records)) && LedgerOk(Replay(records).value.inputs)
    ensures Counted(Replay(records + [r]).value, PendingWhenAsked(records + [r]), ArrivedSince(records + [r]))
  {
    hide Reduce;
    assert (records + [r])[..|records|] == records;
    var s, after := Replay(records).value, Replay(records + [r]).value;
    if after.Run? && after.phase == Executing(ModelInFlight) {
      if r.event.StepCompleted? {
        StepSpends(s, r.event);
      } else {
        OtherSpends(s, r.event);
        if r.event.InputAccepted? { Accepted(s, r.event); }
      }
    }
  }

  lemma KeptNext(front: seq<Record>, r: Record)
    requires Replay(front).Some? && Replay(front).value.Run? && Replay(front + [r]).Some? && InOrder(front, r.event)
    requires var s := Replay(front).value;
             LedgerOk(s.inputs) && InStep(s) && CoveredOrOwing(s) && Counted(s, PendingWhenAsked(front), ArrivedSince(front))
    ensures var after := Replay(front + [r]).value;
            && CoveredOrOwing(after) && InStep(after)
            && Counted(after, PendingWhenAsked(front + [r]), ArrivedSince(front + [r]))
  {
    hide Reduce, CoveredOrOwing, Counted, InStep, LedgerOk, InOrder, PendingWhenAsked, ArrivedSince;
    assert (front + [r])[..|front|] == front;
    var s := Replay(front).value;
    ReduceInStep(s, r.event);
    CountedNext(front, r);
    ReduceGrant(s, r.event);
    if Replay(front + [r]).value.phase.Terminal? {
      NothingOwed(Replay(front + [r]).value);
    } else {
      StepCovered(front, r.event);
    }
  }

  /** In every run that keeps to the offer each pending input has a model step left, or is delivered next. */
  lemma {:induction false} ReservationsKept(records: seq<Record>)
    requires Replay(records).Some? && Orderly(records)
    ensures var s := Replay(records).value;
            CoveredOrOwing(s) && InStep(s) && Counted(s, PendingWhenAsked(records), ArrivedSince(records))
  {
    if records != [] {
      hide Reduce, CoveredOrOwing, Counted, InStep, LedgerOk, InOrder, PendingWhenAsked, ArrivedSince, Staged, AttemptIdsDistinct;
      var front, r := records[..|records| - 1], records[|records| - 1];
      assert front + [r] == records;
      ReservationsKept(front);
      ReplayedState(front);
      if front == [] {
        FirstReserves(front, r);
      } else {
        KeptNext(front, r);
      }
    } else {
      NothingOwed(Idle);
    }
  }

  lemma NothingOwed(s: State)
    requires s.Idle? || s.phase.Terminal?
    ensures CoveredOrOwing(s) && (s.Idle? ==> InStep(s) && Counted(s, 0, 0))
  {
  }

  lemma FirstReserves(records: seq<Record>, r: Record)
    requires Replay(records) == Some(Idle) && Replay(records + [r]).Some?
    ensures CoveredOrOwing(Replay(records + [r]).value) && InStep(Replay(records + [r]).value)
    ensures Counted(Replay(records + [r]).value, PendingWhenAsked(records + [r]), ArrivedSince(records + [r]))
  {
    assert (records + [r])[..|records|] == records;
  }

  // ----- where the reservation promise fails -----

  /** The grants are wide enough that only model steps matter. */
  predicate Roomy(b: Budget) {
    && b.usage.toolCalls < b.grant.toolCalls && b.usage.actionProposals <= b.grant.actionProposals
    && b.usage.toolContentBytes + 32_768 <= b.grant.toolContentBytes
  }

  /** A run whose last attempt was asked, with tools, when one unreserved step was left beyond it. */
  predicate LastToolStep(s: State) {
    && s.Run? && s.phase == Executing(ModelInFlight) && s.inFlight.Some? && s.inFlight.value.ModelStep? && s.budget.Some?
    && InStep(s) && s.attempts != [] && s.attempts[|s.attempts| - 1].observation.None?
    && s.attempts[|s.attempts| - 1].step == s.step && LedgerOk(s.inputs) && Roomy(s.budget.value)
    && s.step + |Pending(s.inputs)| == s.budget.value.grant.modelSteps - 1
    && OfMode(Pending(s.inputs), Steer) == [] && |OfMode(Pending(s.inputs), Queue)| <= 2
    && |s.inputs| <= 6 && TotalBytes(s.inputs) + 2 <= INPUT_BYTES
  }

  /** Two inputs may still be accepted while such an attempt is in flight; if it then calls the tool it was
      offered, more inputs are pending than model steps are left. */
  lemma TwoInputsOverrun(s: State, a: Event, b: Event, call: Call)
    requires LastToolStep(s) && call.kind.Read?
    requires a.InputAccepted? && a.bytes == 1 && a.mode.Steer? && !Known(s.inputs, a.commandId, a.messageId)
    requires a.step == s.budget.value.grant.modelSteps - |Pending(s.inputs)| && a.order == |s.inputs|
    requires b.InputAccepted? && b.bytes == 1 && b.mode.Queue? && !Known(s.inputs, b.commandId, b.messageId)
    requires b.step == a.step - 1 && b.order == |s.inputs| + 1 && a.commandId != b.commandId && a.messageId != b.messageId
    ensures ToolsEnabled(s)
    ensures Reduce(s, a).Some? && Reduce(Reduce(s, a).value, b).Some?
    ensures var pending := Reduce(Reduce(s, a).value, b).value;
            var e := StepCompleted(s.inFlight.value, Finished(s.attempts[|s.attempts| - 1].attemptId, false, true, [call]));
            ToolStep(pending, e) && !Covered(Reduce(pending, e).value)
  {
    hide LedgerOk, Known, Reduce, Pending, OfMode, TotalBytes, ToolStep, Covered;
    Accepts(s, a);
    Joins(s.inputs, InputOf(a));
    var one := Reduce(s, a).value;
    StillUnknown(s.inputs, InputOf(a), b.commandId, b.messageId);
    Accepts(one, b);
    Joins(one.inputs, InputOf(b));
    var o := Finished(s.attempts[|s.attempts| - 1].attemptId, false, true, [call]);
    var two := Reduce(one, b).value;
    ReadStepLegal(two, o, call);
    ToolStepCovered(two, StepCompleted(s.inFlight.value, o));
  }

  predicate Fitting(s: State, e: Event) {
    && s.Run? && !s.phase.Terminal? && s.budget.Some? && LedgerOk(s.inputs) && e.InputAccepted? && e.bytes == 1
    && !Known(s.inputs, e.commandId, e.messageId) && e.order == |s.inputs| < INPUT_LIMIT && TotalBytes(s.inputs) < INPUT_BYTES
    && e.step == s.budget.value.grant.modelSteps - |Pending(s.inputs)| && Left(s) > |Pending(s.inputs)|
    && (e.mode.Steer? ==> OfMode(Pending(s.inputs), Steer) == [])
    && (e.mode.Queue? ==> |OfMode(Pending(s.inputs), Queue)| < QUEUE_LIMIT)
  }

  /** A fitting input is accepted, and joins the end of the ledger. */
  lemma Accepts(s: State, e: Event)
    requires Fitting(s, e)
    ensures Reduce(s, e) == Some(s.(inputs := s.inputs + [InputOf(e)], revision := s.revision + 1))
    ensures LedgerOk(s.inputs + [InputOf(e)])
  {
    hide Pending, OfMode, TotalBytes, Known;
    AcceptKeeps(s, e);
  }

  lemma StillUnknown(inputs: seq<Input>, i: Input, commandId: Id, messageId: Id)
    requires !Known(inputs, commandId, messageId) && i.commandId != commandId && i.messageId != messageId
    ensures !Known(inputs + [i], commandId, messageId)
  {
  }

  lemma ReadStepLegal(s: State, o: Observation, call: Call)
    requires s.Run? && s.phase == Executing(ModelInFlight) && s.inFlight.Some? && s.inFlight.value.ModelStep?
    requires s.attempts != [] && s.attempts[|s.attempts| - 1].observation.None? && s.attempts[|s.attempts| - 1].step == s.step
    requires s.budget.Some? && Roomy(s.budget.value) && s.step < s.budget.value.grant.modelSteps
    requires s.budget.value.usage.modelSteps < s.budget.value.grant.modelSteps
    requires call.kind.Read? && o == Finished(s.attempts[|s.attempts| - 1].attemptId, false, true, [call])
    ensures ToolStep(s, StepCompleted(s.inFlight.value, o))
  {
    assert [call][1..] == [];
    assert Proposals([]) == 0 && DeclaredBytes([]) == 0;
  }

  predicate Apart(a: Event, b: Event) {
    a.InputAccepted? && b.InputAccepted? && a.commandId != b.commandId && a.messageId != b.messageId
  }

  lemma DeliverKnown(inputs: seq<Input>, messageId: Id, turnId: Id, c: Id, m: Id)
    ensures Known(Deliver(inputs, messageId, turnId), c, m) ==> Known(inputs, c, m)
  {
    var next := Deliver(inputs, messageId, turnId);
    if Known(next, c, m) {
      var k :| 0 <= k < |next| && (next[k].commandId == c || next[k].messageId == m);
      assert inputs[k].commandId == c || inputs[k].messageId == m;
    }
  }

  /** The steering message of two pending inputs is delivered first, and the other stays as it is. */
  lemma SteerDelivered(s: State, a: Input, b: Input, turnId: Id)
    requires s.Run? && s.phase == Executing(ModelReady) && LedgerOk(s.inputs)
    requires Pending(s.inputs) == [a, b] && a.mode.Steer? && b.mode.Queue? && a.messageId != b.messageId
    ensures var d := InputDelivered(a.messageId, turnId);
            Reduce(s, d) == Some(s.(inputs := Deliver(s.inputs, a.messageId, turnId), queueReady := false,
                                 talk := s.talk + [Asked(a.messageId)], revision := s.revision + 1))
    ensures var next := Deliver(s.inputs, a.messageId, turnId);
            Pending(next) == [b] && TotalBytes(next) == TotalBytes(s.inputs) && LedgerOk(next)
  {
    hide LedgerOk;
    OnlySteer(a, b);
    DeliverPending(s.inputs, a.messageId, turnId);
    DeliverKeeps(s.inputs, a.messageId, turnId);
    WithoutFirst(a, b);
  }

  lemma OnlySteer(a: Input, b: Input)
    requires a.mode.Steer? && b.mode.Queue?
    ensures OfMode([a, b], Steer) == [a]
  {
    assert [a][..0] == [] && OfMode([], Steer) == [];
    assert OfMode([a], Steer) == OfMode([a][..0], Steer) + [a];
    assert [a, b][..1] == [a];
    assert OfMode([a, b], Steer) == OfMode([a, b][..1], Steer) + [];
  }

  lemma WithoutFirst(a: Input, b: Input)
    requires a.messageId != b.messageId
    ensures Without([a, b], a.messageId) == [b]
  {
    WithoutAppend([], a, a.messageId);
    WithoutAppend([a], b, a.messageId);
    assert [] + [a] == [a] && [a] + [b] == [a, b];
  }

  function Next(s: State, e: Event): State {
    if Reduce(s, e).Some? then Reduce(s, e).value else s
  }

  /** A delivery frees a reservation number that the next input takes again, although a later input still holds
      it: two pending inputs reserve the same model step. */
  lemma SameStepReservedTwice(s: State, a: Event, b: Event, c: Event, turnId: Id)
    requires s.Run? && s.phase == Executing(ModelReady) && s.budget.Some? && LedgerOk(s.inputs) && Pending(s.inputs) == []
    requires |s.inputs| <= 5 && TotalBytes(s.inputs) + 3 <= INPUT_BYTES && Left(s) >= 2
    requires Apart(a, b) && Apart(b, c) && Apart(a, c) && a.bytes == b.bytes == c.bytes == 1
    requires a.mode.Steer? && b.mode.Queue? && c.mode.Steer?
    requires a.step == s.budget.value.grant.modelSteps && b.step == a.step - 1 && c.step == a.step - 1
    requires a.order == |s.inputs| && b.order == |s.inputs| + 1 && c.order == |s.inputs| + 2
    requires !Known(s.inputs, a.commandId, a.messageId) && !Known(s.inputs, b.commandId, b.messageId)
    requires !Known(s.inputs, c.commandId, c.messageId)
    ensures var d := InputDelivered(a.messageId, turnId);
            var s1 := Next(s, a);
            var s2 := Next(s1, b);
            var s3 := Next(s2, d);
            && Reduce(s, a).Some? && Reduce(s1, b).Some? && Reduce(s2, d).Some? && Reduce(s3, c).Some?
            && Pending(Next(s3, c).inputs) == [InputOf(b), InputOf(c)]
    ensures InputOf(b).step == InputOf(c).step
  {
    hide Reduce, LedgerOk, Known, Pending, OfMode, TotalBytes, Deliver;
    Nothing(b);
    Accepts(s, a);
    Joins(s.inputs, InputOf(a));
    var s1 := Next(s, a);
    StillUnknown(s.inputs, InputOf(a), b.commandId, b.messageId);
    Accepts(s1, b);
    Joins(s1.inputs, InputOf(b));
    var s2 := Next(s1, b);
    assert Pending(s2.inputs) == [InputOf(a), InputOf(b)];
    SteerDelivered(s2, InputOf(a), InputOf(b), turnId);
    var s3 := Next(s2, InputDelivered(a.messageId, turnId));
    StillUnknown(s.inputs, InputOf(a), c.commandId, c.messageId);
    StillUnknown(s1.inputs, InputOf(b), c.commandId, c.messageId);
    DeliverKnown(s2.inputs, a.messageId, turnId, c.commandId, c.messageId);
    Accepts(s3, c);
    Joins(s3.inputs, InputOf(c));
  }

  lemma Nothing(b: Event)
    requires b.InputAccepted? && b.mode.Queue?
    ensures OfMode([], Steer) == [] && OfMode([], Queue) == [] && OfMode([InputOf(b)], Steer) == []
  {
    assert [InputOf(b)][..0] == [];
  }
}
