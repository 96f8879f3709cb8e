/** What every kernel transition keeps, whatever the event. */
module KernelFacts {
  import opened Results
  import opened Kernel

  // ----- the derived usage figures never influence a transition -----

  function With(s: State, d: Derived): State {
    if s.Run? && s.budget.Some? then s.(budget := Some(s.budget.value.(usage := s.budget.value.usage.(derived := d)))) else s
  }

  const ZERO := Derived(0, 0, 0)

  /** Equal but for the derived figures. */
  predicate Alike(a: Option<State>, b: Option<State>) {
    a.None? == b.None? && (a.Some? ==> With(a.value, ZERO) == With(b.value, ZERO))
  }

  lemma FinishBlind(s: State, o: Observation, d: Derived)
    requires s.Run? && o.Finished?
    ensures Alike(Finish(With(s, d), o), Finish(s, o))
  {
    hide Pending, CloseAll, Proposals, DeclaredBytes;
    if s.budget.Some? {
      var a, b := Spent(With(s, d).budget.value, o.calls), Spent(s.budget.value, o.calls);
      assert a == b.(usage := b.usage.(derived := d));
      assert StepsExceeded(a, s.step, o.calls) == StepsExceeded(b, s.step, o.calls);
      assert ToolsExceeded(a, o.calls) == ToolsExceeded(b, o.calls);
    }
  }

  lemma CompleteStepBlind(s: State, e: Event, d: Derived)
    requires s.Run? && e.StepCompleted?
    ensures Alike(CompleteStep(With(s, d), e), CompleteStep(s, e))
  {
    var t := With(s, d);
    if s.attempts != [] {
      var at := |s.attempts| - 1;
      var attempts := s.attempts[at := s.attempts[at].(observation := Some(e.observation))];
      var plain, changed := s.(attempts := attempts), if t.Run? then t.(attempts := attempts) else t;
      assert changed == With(plain, d);
      if e.observation.Finished? { FinishBlind(plain, e.observation, d); }
    }
  }

  lemma ReadBlind(s: State, e: Event, d: Derived)
    requires s.Run? && s.budget.Some? && e.ReadCompleted?
    ensures Alike(CompleteRead(With(s, d), e), CompleteRead(s, e))
  {
  }

  lemma CommandBlind(s: State, e: Event, d: Derived)
    requires s.Run? && s.budget.Some? && e.CommandCompleted?
    ensures Alike(CompleteCommand(With(s, d), e), CompleteCommand(s, e))
  {
    hide JoinedBytes, DecodeChunk;
  }

  lemma OutputBlind(s: State, e: Event, d: Derived)
    requires s.Run? && s.budget.Some? && e.CommandOutput?
    ensures Alike(ObserveOutput(With(s, d), e), ObserveOutput(s, e))
  {
    hide JoinedBytes, DecodeChunk;
  }

  lemma RequestBlind(s: State, effect: Effect, d: Derived)
    requires s.Run? && s.budget.Some?
    ensures Alike(Request(With(s, d), effect), Request(s, effect))
  {
  }

  lemma InputsBlind(s: State, e: Event, d: Derived)
    requires s.Run? && s.budget.Some?
    ensures e.InputAccepted? ==> Alike(AcceptInput(With(s, d), e), AcceptInput(s, e))
    ensures e.InputDelivered? ==> Alike(DeliverInput(With(s, d), e), DeliverInput(s, e))
  {
  }

  /** Overwriting the derived figures before or after a transition makes no other difference. */
  lemma ReduceBlind(s: State, e: Event, d: Derived)
    ensures Alike(Reduce(With(s, d), e), Reduce(s, e))
  {
    if s.Run? && s.budget.Some? && !s.phase.Terminal? {
      hide CompleteStep, CompleteRead, CompleteCommand, ObserveOutput, Request, AcceptInput, DeliverInput;
      match e {
        case StepCompleted(_, _) => CompleteStepBlind(s, e, d);
        case ReadCompleted(_, _) => ReadBlind(s, e, d);
        case CommandCompleted(_, _) => CommandBlind(s, e, d);
        case CommandOutput(_, _, _, _, _) => OutputBlind(s, e, d);
        case EffectRequested(effect) => RequestBlind(s, effect, d);
        case InputAccepted(_, _, _, _, _, _) => InputsBlind(s, e, d);
        case InputDelivered(_, _) => InputsBlind(s, e, d);
        case _ =>
      }
    }
  }

  // ----- the input ledger -----

  predicate Distinct(inputs: seq<Input>) {
    forall i, j :: 0 <= i < j < |inputs| ==>
      inputs[i].commandId != inputs[j].commandId && inputs[i].messageId != inputs[j].messageId
  }

  predicate LedgerOk(inputs: seq<Input>) {
    && |inputs| <= INPUT_LIMIT && TotalBytes(inputs) <= INPUT_BYTES
    && |OfMode(Pending(inputs), Steer)| <= 1 && |OfMode(Pending(inputs), Queue)| <= QUEUE_LIMIT
    && (forall k :: 0 <= k < |inputs| ==> inputs[k].order == k)
    && Distinct(inputs)
  }

  lemma {:induction false} Modes(inputs: seq<Input>)
    ensures |OfMode(inputs, Steer)| + |OfMode(inputs, Queue)| == |inputs|
  {
    if inputs != [] { Modes(inputs[..|inputs| - 1]); }
  }

  /** The input an acceptance event stands for. */
  function InputOf(e: Event): Input
    requires e.InputAccepted?
  {
    Input(e.commandId, e.messageId, e.bytes, e.mode, e.step, e.order, Accepted)
  }

  /** A pending input appended to the ledger is the last of the pending ones. */
  lemma Joins(inputs: seq<Input>, i: Input)
    requires i.state.Accepted?
    ensures var next := inputs + [i];
            && Pending(next) == Pending(inputs) + [i] && TotalBytes(next) == TotalBytes(inputs) + i.bytes
            && OfMode(Pending(next), Steer) == OfMode(Pending(inputs), Steer) + (if i.mode.Steer? then [i] else [])
            && OfMode(Pending(next), Queue) == OfMode(Pending(inputs), Queue) + (if i.mode.Queue? then [i] else [])
  {
    var next, pending := inputs + [i], Pending(inputs);
    assert next[..|inputs|] == inputs && (pending + [i])[..|pending|] == pending;
  }

  lemma AcceptKeeps(s: State, e: Event)
    requires s.Run? && e.InputAccepted? && LedgerOk(s.inputs) && AcceptInput(s, e).Some?
    ensures LedgerOk(AcceptInput(s, e).value.inputs)
    ensures Pending(AcceptInput(s, e).value.inputs) == Pending(s.inputs) + [InputOf(e)]
  {
    hide Pending, OfMode, TotalBytes;
    Joins(s.inputs, InputOf(e));
  }

  lemma {:induction false} ClosePending(inputs: seq<Input>)
    ensures Pending(CloseAll(inputs)) == [] && TotalBytes(CloseAll(inputs)) == TotalBytes(inputs)
  {
    if inputs != [] {
      assert CloseAll(inputs)[..|inputs| - 1] == CloseAll(inputs[..|inputs| - 1]);
      ClosePending(inputs[..|inputs| - 1]);
    }
  }

  function Without(inputs: seq<Input>, messageId: Id): seq<Input> {
    if inputs == [] then []
    else
      var last := inputs[|inputs| - 1];
      Without(inputs[..|inputs| - 1], messageId) + if last.messageId == messageId then [] else [last]
  }

  lemma {:induction false} WithoutAppend(inputs: seq<Input>, last: Input, messageId: Id)
    ensures Without(inputs + [last], messageId) == Without(inputs, messageId) + if last.messageId == messageId then [] else [last]
  {
    assert (inputs + [last])[..|inputs|] == inputs;
  }

  /** Delivering a message takes exactly it out of the pending inputs. */
  lemma {:induction false} DeliverPending(inputs: seq<Input>, messageId: Id, turnId: Id)
    ensures Pending(Deliver(inputs, messageId, turnId)) == Without(Pending(inputs), messageId)
    ensures TotalBytes(Deliver(inputs, messageId, turnId)) == TotalBytes(inputs)
  {
    if inputs != [] {
      var front, last := inputs[..|inputs| - 1], inputs[|inputs| - 1];
      assert Deliver(inputs, messageId, turnId)[..|inputs| - 1] == Deliver(front, messageId, turnId);
      DeliverPending(front, messageId, turnId);
      var pending := Pending(front);
      WithoutAppend(pending, last, messageId);
      assert pending + [] == pending && Without(pending, messageId) + [] == Without(pending, messageId);
    }
  }

  lemma {:induction false} WithoutShrinks(inputs: seq<Input>, messageId: Id, mode: Mode)
    ensures |OfMode(Without(inputs, messageId), mode)| <= |OfMode(inputs, mode)|
  {
    if inputs != [] {
      var front, last := inputs[..|inputs| - 1], inputs[|inputs| - 1];
      WithoutShrinks(front, messageId, mode);
      var kept := Without(front, messageId);
      assert (kept + [last])[..|kept|] == kept;
      assert kept + [] == kept;
    }
  }

  lemma DeliverKeeps(inputs: seq<Input>, messageId: Id, turnId: Id)
    requires LedgerOk(inputs)
    ensures LedgerOk(Deliver(inputs, messageId, turnId))
  {
    DeliverPending(inputs, messageId, turnId);
    WithoutShrinks(Pending(inputs), messageId, Steer);
    WithoutShrinks(Pending(inputs), messageId, Queue);
  }

  lemma CloseKeeps(inputs: seq<Input>)
    requires LedgerOk(inputs)
    ensures LedgerOk(CloseAll(inputs))
  {
    ClosePending(inputs);
  }

  /** An input, once accepted, stays: only its state moves on, and never back to pending. */
  predicate InputsGrow(before: seq<Input>, after: seq<Input>) {
    && |before| <= |after|
    && forall k :: 0 <= k < |before| ==>
         after[k] == before[k].(state := after[k].state)
         && (after[k].state == before[k].state || (before[k].state.Accepted? && !after[k].state.Accepted?))
  }

  lemma ReduceInputs(s: State, e: Event)
    requires s.Run? && Reduce(s, e).Some?
    ensures var after := Reduce(s, e).value.inputs;
            match e
            case InputAccepted(_, _, _, _, _, _) => after == s.inputs + [InputOf(e)]
            case InputDelivered(m, t) => after == Deliver(s.inputs, m, t)
            case _ => after == s.inputs || after == CloseAll(s.inputs)
  {
  }

  lemma ReduceLedger(s: State, e: Event)
    requires s.Run? && Reduce(s, e).Some?
    ensures InputsGrow(s.inputs, Reduce(s, e).value.inputs)
    ensures LedgerOk(s.inputs) ==> LedgerOk(Reduce(s, e).value.inputs)
  {
    var after := Reduce(s, e).value.inputs;
    ReduceInputs(s, e);
    if LedgerOk(s.inputs) {
      if e.InputAccepted? {
        AcceptKeeps(s, e);
      } else if e.InputDelivered? {
        DeliverKeeps(s.inputs, e.messageId, e.turnId);
      } else {
        CloseKeeps(s.inputs);
      }
    }
  }

  // ----- attempts -----

  predicate AttemptIdsDistinct(attempts: seq<Attempt>) {
    forall i, j :: 0 <= i < j < |attempts| ==> attempts[i].attemptId != attempts[j].attemptId
  }

  /** Attempts are only ever added, one at a time by AttemptStarted, and observed once. */
  lemma ReduceAttempts(s: State, e: Event)
    requires s.Run? && Reduce(s, e).Some?
    ensures var after := Reduce(s, e).value.attempts;
            && |after| == |s.attempts| + (if e.AttemptStarted? then 1 else 0)
            && (forall k :: 0 <= k < |s.attempts| ==>
                  after[k] == s.attempts[k]
                  || (e.StepCompleted? && s.attempts[k].observation.None? && k == |s.attempts| - 1
                      && after[k] == s.attempts[k].(observation := Some(e.observation))))
            && (e.AttemptStarted? ==> after[|s.attempts|] == Attempt(e.attemptId, s.step, None))
            && (e.AttemptStarted? ==> forall k :: 0 <= k < |s.attempts| ==> s.attempts[k].attemptId != e.attemptId)
            && (e.StepCompleted? ==> s.attempts != [] && s.attempts[|s.attempts| - 1].attemptId == e.observation.attemptId
                                     && s.attempts[|s.attempts| - 1].observation.None?
                                     && after[|s.attempts| - 1].observation == Some(e.observation))
    ensures AttemptIdsDistinct(s.attempts) ==> AttemptIdsDistinct(Reduce(s, e).value.attempts)
    ensures Reduce(s, e).value.Run?
  {
  }

  // ----- what is in flight -----

  /** Only a request puts an effect in flight, undispatched; a dispatch record is written for the effect in
      flight; every other step keeps the effect and its dispatch mark, or takes the effect out of flight. */
  lemma ReduceFlight(s: State, e: Event)
    requires s.Run? && Reduce(s, e).Some?
    ensures Reduce(s, e).value.Run?
    ensures var after := Reduce(s, e).value;
            match e
            case EffectRequested(effect) =>
              after.inFlight == Some(effect) && Decide(s) == Some(effect)
              && (!effect.ModelStep? && !effect.ReadTool? ==> !after.dispatched)
            case DispatchStarted(effect) =>
              s.inFlight == Some(effect) && !s.dispatched && after == s.(dispatched := true, revision := s.revision + 1)
            case _ =>
              after.inFlight.None?
              || (after.inFlight == s.inFlight && (after.dispatched == s.dispatched || after.phase.AwaitingRetry?))
  {
  }

  predicate ForCommand(p: Phase) {
    || p == Executing(PrepareReady) || p == Executing(PrepareInFlight) || WithAction(p)
  }

  predicate WithAction(p: Phase) {
    || p == AwaitingApproval || p == Executing(ConsumeReady) || p == Executing(ActionReady) || p == Executing(ActionInFlight)
  }

  predicate Stepping(p: Phase) {
    p == Executing(AwaitingAttempt) || p == Executing(ModelInFlight) || p == AwaitingRetry
  }

  /** The stage tells what is in flight; a stage that needs a call, an action or an attempt has one. */
  predicate Staged(s: State) {
    s.Run? ==>
      && (match s.inFlight
          case None => s.phase != Executing(ActionInFlight) && s.phase != Executing(PrepareInFlight)
                       && s.phase != Executing(ToolInFlight) && !Stepping(s.phase)
          case Some(RunCommand(_)) => s.phase == Executing(ActionInFlight)
          case Some(PrepareCommand(_, _)) => s.phase == Executing(PrepareInFlight)
          case Some(ReadTool(_)) => s.phase == Executing(ToolInFlight)
          case Some(ModelStep(_)) => Stepping(s.phase))
      && (ForCommand(s.phase) ==> s.tool.Some? && s.tool.value.kind.Command?)
      && (s.phase == Executing(ToolReady) || s.phase == Executing(ToolInFlight) ==> s.tool.Some?)
      && (WithAction(s.phase) ==> s.action.Some?)
      && (s.phase == Executing(ActionInFlight) ==>
            && s.output.Some? && s.inFlight == Some(RunCommand(s.output.value.actionId))
            && s.action == Some(s.output.value.actionId))
      && (s.phase == Executing(ModelInFlight) ==>
            && s.attempts != [] && s.attempts[|s.attempts| - 1].observation.None? && s.attempts[|s.attempts| - 1].step == s.step)
  }

  lemma FinishStaged(s: State, o: Observation)
    requires s.Run? && o.Finished? && Finish(s, o).Some?
    requires s.phase == Executing(ModelInFlight)
    ensures Staged(Finish(s, o).value)
  {
    hide Pending, CloseAll, Proposals, DeclaredBytes, ToolsExceeded, StepsExceeded;
  }

  lemma CompleteStepStaged(s: State, e: Event)
    requires s.Run? && e.StepCompleted? && Staged(s) && CompleteStep(s, e).Some?
    ensures Staged(CompleteStep(s, e).value)
  {
    hide Finish;
    var at := |s.attempts| - 1;
    var observed := s.(attempts := s.attempts[at := s.attempts[at].(observation := Some(e.observation))]);
    if e.observation.Finished? { FinishStaged(observed, e.observation); }
  }

  lemma ReduceStaged(s: State, e: Event)
    requires Staged(s) && Reduce(s, e).Some?
    ensures Staged(Reduce(s, e).value)
  {
    hide CompleteStep, CloseAll, JoinedBytes, DecodeChunk;
    if s.Run? && e.StepCompleted? { CompleteStepStaged(s, e); }
  }
}
