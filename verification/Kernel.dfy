/** The kernel's reducer for a provider run whose model may read the repository and propose commands
    (packages/kernel/src/reducer.ts and decide.ts). */
module Kernel {
  import opened Results
  import opened Utf16
  import opened Utf8

  type Id = nat

  const INPUT_LIMIT := 8
  const INPUT_BYTES := 16_384
  const QUEUE_LIMIT := 3
  const STREAM_BYTES := 65_536
  const COMMAND_RESERVE := 131_072

  // ----- the run state -----

  datatype Mode = Steer | Queue
  datatype InputState = Accepted | Delivered(turnId: Id) | Closed
  /** `step` is the model step the input reserves. */
  datatype Input = Input(commandId: Id, messageId: Id, bytes: nat, mode: Mode, step: int, order: nat, state: InputState)

  datatype Grant = Grant(journalBytes: nat, journalRecords: nat, wallTimeMs: nat, modelSteps: nat, toolCalls: nat,
                         actionProposals: nat, commandOutputBytes: nat, toolContentBytes: nat)
  /** The derived figures are overwritten by the runtime; the reducer counts the rest. */
  datatype Derived = Derived(journalBytes: nat, journalRecords: nat, wallTimeMs: nat)
  datatype Usage = Usage(derived: Derived, modelSteps: nat, toolCalls: nat, actionProposals: nat,
                         commandOutputBytes: nat, toolContentBytes: nat)
  datatype Budget = Budget(grant: Grant, usage: Usage)

  datatype CallKind = Read | Command
  datatype Call = Call(kind: CallKind, callId: Id)
  /** An effect stands for its effect id: the run, the kind and the step, call or action it is for. */
  datatype Effect = ModelStep(step: nat) | ReadTool(callId: Id)
                  | PrepareCommand(callId: Id, expectedRevision: nat) | RunCommand(actionId: Id)

  datatype Stage = ModelReady | AwaitingAttempt | ModelInFlight | ToolReady | ToolInFlight
                 | PrepareReady | PrepareInFlight | ConsumeReady | ActionReady | ActionInFlight
  datatype Outcome = Answered | Blocked | Cancelled
  datatype Phase = Executing(stage: Stage) | AwaitingApproval | AwaitingRetry | Terminal(outcome: Outcome)

  datatype Observation =
    | Finished(attemptId: Id, stop: bool, hasText: bool, calls: seq<Call>)
    | NotStarted(attemptId: Id, retryable: bool)
    | Interrupted(attemptId: Id)
    | Unknown(attemptId: Id)
  datatype Attempt = Attempt(attemptId: Id, step: nat, observation: Option<Observation>)
  datatype Stream = Stdout | Stderr
  /** The output chunks observed so far, as they were decoded. */
  datatype Output = Output(actionId: Id, stdout: seq<Text>, stderr: seq<Text>)

  /** An assistant item of the conversation, with or without text, or a delivered input. */
  datatype Turn = Said(hasText: bool) | Asked(messageId: Id)

  /** `talk` is the conversation without its tool items. */
  datatype State =
    | Idle
    | Run(phase: Phase, revision: nat, step: nat, budget: Option<Budget>, inputs: seq<Input>, queueReady: bool,
          inFlight: Option<Effect>, dispatched: bool, attempts: seq<Attempt>, tool: Option<Call>, tools: nat,
          action: Option<Id>, output: Option<Output>, talk: seq<Turn>)

  datatype ReadResult = ReadDone(bytes: nat) | ReadFailed(retryable: bool, bytes: nat)
  /** `exited` tells an ordinary exit from the other outcomes. */
  datatype CommandReport = CommandReport(exited: bool, exitCode: Option<nat>, startedAt: int, completedAt: int,
                                         stdoutBytes: nat, stderrBytes: nat, cleanedUp: bool, visibleBytes: nat)

  datatype Event =
    | RunStarted(grant: Option<Grant>)
    | InputAccepted(bytes: nat, commandId: Id, messageId: Id, mode: Mode, step: int, order: nat)
    | InputDelivered(messageId: Id, turnId: Id)
    | EffectRequested(effect: Effect)
    | DispatchStarted(effect: Effect)
    | AttemptStarted(attemptId: Id, effect: Effect)
    | StepCompleted(effect: Effect, observation: Observation)
    | RetryRequested
    | ReadCompleted(effect: Effect, result: ReadResult)
    | CommandProposed(effect: Effect, actionId: Id, expectedRevision: nat)
    | ApprovalResolved(actionId: Id, approve: bool)
    | ApprovalConsumed(actionId: Id)
    | CommandOutput(effect: Effect, stream: Stream, index: nat, byteLength: nat, content: seq<Byte>)
    | CommandCompleted(effect: Effect, report: CommandReport)
    | RunCancelled
    | RunBlocked

  // ----- decide -----

  function Decide(s: State): Option<Effect> {
    match s
    case Idle => None
    case Run(phase, revision, step, _, _, _, _, _, _, tool, _, action, _, _) =>
      if phase == Executing(ModelReady) then Some(ModelStep(step))
      else if phase == Executing(ToolReady) && tool.Some? then Some(ReadTool(tool.value.callId))
      else if phase == Executing(PrepareReady) && tool.Some? then Some(PrepareCommand(tool.value.callId, revision + 3))
      else if phase == Executing(ActionReady) && action.Some? then Some(RunCommand(action.value))
      else None
  }

  // ----- inputs -----

  function TotalBytes(inputs: seq<Input>): nat {
    if inputs == [] then 0 else TotalBytes(inputs[..|inputs| - 1]) + inputs[|inputs| - 1].bytes
  }

  function Pending(inputs: seq<Input>): seq<Input> {
    if inputs == [] then []
    else
      var last := inputs[|inputs| - 1];
      Pending(inputs[..|inputs| - 1]) + if last.state.Accepted? then [last] else []
  }

  function OfMode(inputs: seq<Input>, mode: Mode): seq<Input> {
    if inputs == [] then []
    else
      var last := inputs[|inputs| - 1];
      OfMode(inputs[..|inputs| - 1], mode) + if last.mode == mode then [last] else []
  }

  function CloseAll(inputs: seq<Input>): (r: seq<Input>)
    ensures |r| == |inputs|
    ensures forall k :: 0 <= k < |r| ==> r[k] == if inputs[k].state.Accepted? then inputs[k].(state := Closed) else inputs[k]
  {
    seq(|inputs|, k requires 0 <= k < |inputs| => if inputs[k].state.Accepted? then inputs[k].(state := Closed) else inputs[k])
  }

  function Deliver(inputs: seq<Input>, messageId: Id, turnId: Id): (r: seq<Input>)
    ensures |r| == |inputs|
    ensures forall k :: 0 <= k < |r| ==>
              r[k] == if inputs[k].state.Accepted? && inputs[k].messageId == messageId
                      then inputs[k].(state := Delivered(turnId)) else inputs[k]
  {
    seq(|inputs|, k requires 0 <= k < |inputs| =>
          if inputs[k].state.Accepted? && inputs[k].messageId == messageId
          then inputs[k].(state := Delivered(turnId)) else inputs[k])
  }

  /** A steering message goes first; queued messages wait for a complete answer. */
  function NextInput(s: State): Option<Input>
    requires s.Run?
  {
    var pending := Pending(s.inputs);
    var steers := OfMode(pending, Steer);
    if steers != [] then Some(steers[0])
    else if s.queueReady && pending != [] then Some(pending[0]) else None
  }

  predicate Known(inputs: seq<Input>, commandId: Id, messageId: Id) {
    exists k :: 0 <= k < |inputs| && (inputs[k].commandId == commandId || inputs[k].messageId == messageId)
  }

  function AcceptInput(s: State, e: Event): Option<State>
    requires s.Run? && e.InputAccepted?
  {
    var pending := Pending(s.inputs);
    if s.budget.None? || |s.inputs| >= INPUT_LIMIT || Known(s.inputs, e.commandId, e.messageId)
       || e.order != |s.inputs| || TotalBytes(s.inputs) + e.bytes > INPUT_BYTES then None
    else if (e.mode.Steer? && OfMode(pending, Steer) != [])
            || (e.mode.Queue? && |OfMode(pending, Queue)| >= QUEUE_LIMIT)
            || e.step != s.budget.value.grant.modelSteps - |pending|
            || e.step <= s.budget.value.usage.modelSteps then None
    else Some(s.(inputs := s.inputs + [Input(e.commandId, e.messageId, e.bytes, e.mode, e.step, e.order, Accepted)],
                 revision := s.revision + 1))
  }

  function DeliverInput(s: State, e: Event): Option<State>
    requires s.Run? && e.InputDelivered?
  {
    if s.phase != Executing(ModelReady) || NextInput(s).None? || NextInput(s).value.messageId != e.messageId then None
    else Some(s.(inputs := Deliver(s.inputs, e.messageId, e.turnId), queueReady := false,
                 talk := s.talk + [Asked(e.messageId)], revision := s.revision + 1))
  }

  // ----- effects -----

  function End(s: State, outcome: Outcome): State
    requires s.Run?
  {
    s.(phase := Terminal(outcome), inputs := CloseAll(s.inputs), inFlight := None, dispatched := false,
       queueReady := false, revision := s.revision + 1)
  }

  function Request(s: State, e: Effect): Option<State>
    requires s.Run?
  {
    if Decide(s) != Some(e) then None
    else
      var next := s.(inFlight := Some(e), revision := s.revision + 1);
      match e
      case ModelStep(_) => Some(next.(phase := Executing(AwaitingAttempt)))
      case ReadTool(_) => Some(next.(phase := Executing(ToolInFlight)))
      case PrepareCommand(_, _) => Some(next.(phase := Executing(PrepareInFlight), dispatched := false))
      case RunCommand(a) =>
        Some(next.(phase := Executing(ActionInFlight), dispatched := false, output := Some(Output(a, [], []))))
  }

  /** The in-flight effects that record a dispatch before they act. */
  predicate Dispatchable(s: State) {
    && s.Run? && s.inFlight.Some?
    && ((s.phase == Executing(ActionInFlight) && s.inFlight.value.RunCommand?)
        || (s.phase == Executing(PrepareInFlight) && s.inFlight.value.PrepareCommand?))
  }

  function Dispatch(s: State, e: Effect): Option<State>
    requires s.Run?
  {
    if !Dispatchable(s) || s.inFlight != Some(e) || s.dispatched then None
    else Some(s.(dispatched := true, revision := s.revision + 1))
  }

  // ----- model steps -----

  function AttemptsAt(attempts: seq<Attempt>, step: nat): nat {
    if attempts == [] then 0
    else AttemptsAt(attempts[..|attempts| - 1], step) + if attempts[|attempts| - 1].step == step then 1 else 0
  }

  function StartAttempt(s: State, e: Event): Option<State>
    requires s.Run? && e.AttemptStarted?
  {
    if s.phase != Executing(AwaitingAttempt) || s.inFlight != Some(e.effect) || !e.effect.ModelStep?
       || (exists k :: 0 <= k < |s.attempts| && s.attempts[k].attemptId == e.attemptId)
       || AttemptsAt(s.attempts, s.step) >= 3 then None
    else Some(s.(attempts := s.attempts + [Attempt(e.attemptId, s.step, None)], phase := Executing(ModelInFlight),
                 revision := s.revision + 1))
  }

  function Proposals(calls: seq<Call>): nat {
    if calls == [] then 0 else Proposals(calls[1..]) + if calls[0].kind.Command? then 1 else 0
  }

  function DeclaredBytes(calls: seq<Call>): nat {
    if calls == [] then 0 else DeclaredBytes(calls[1..]) + if calls[0].kind.Command? then 147_456 else 32_768
  }

  function Spent(b: Budget, calls: seq<Call>): Budget {
    b.(usage := b.usage.(actionProposals := b.usage.actionProposals + Proposals(calls),
                         modelSteps := b.usage.modelSteps + 1, toolCalls := b.usage.toolCalls + |calls|))
  }

  predicate StepsExceeded(spent: Budget, step: nat, calls: seq<Call>) {
    spent.usage.modelSteps > spent.grant.modelSteps || (calls != [] && step >= spent.grant.modelSteps)
  }

  predicate ToolsExceeded(spent: Budget, calls: seq<Call>) {
    || spent.usage.toolCalls > spent.grant.toolCalls
    || spent.usage.actionProposals > spent.grant.actionProposals
    || (Proposals(calls) > 0 && spent.usage.commandOutputBytes + COMMAND_RESERVE > spent.grant.commandOutputBytes)
    || spent.usage.toolContentBytes + DeclaredBytes(calls) > spent.grant.toolContentBytes
  }

  /** Every call of the step is answered with a failure; only the step itself is spent. */
  function Reject(s: State, o: Observation): State
    requires s.Run? && o.Finished? && o.calls != []
  {
    s.(budget := if s.budget.None? then None
                 else Some(s.budget.value.(usage := s.budget.value.usage.(modelSteps := s.budget.value.usage.modelSteps + 1))),
       inFlight := None, step := s.step + 1, phase := Executing(ModelReady), tool := Some(o.calls[|o.calls| - 1]),
       tools := s.tools + |o.calls|, talk := s.talk + [Said(o.hasText)], revision := s.revision + 1)
  }

  /** `s` already holds the attempt's observation. */
  function Finish(s: State, o: Observation): Option<State>
    requires s.Run? && o.Finished?
  {
    var spent := if s.budget.None? then None else Some(Spent(s.budget.value, o.calls));
    if spent.Some? && StepsExceeded(spent.value, s.step, o.calls) then Some(End(s, Blocked))
    else if spent.Some? && ToolsExceeded(spent.value, o.calls) then
      if o.calls == [] then None else Some(Reject(s, o))
    else if o.stop then
      if !o.hasText then None
      else if Pending(s.inputs) != [] then
        Some(s.(budget := spent, inFlight := None, step := s.step + 1, queueReady := true, talk := s.talk + [Said(true)],
                phase := Executing(ModelReady), revision := s.revision + 1))
      else Some(End(s.(budget := spent), Answered))
    else if o.calls == [] then None
    else if spent.None? && (s.step >= 4 || s.tools >= 4) then Some(End(s, Blocked))
    else if |o.calls| > 1 then Some(Reject(s, o))
    else Some(s.(budget := spent, inFlight := None, tool := Some(o.calls[0]), tools := s.tools + 1,
                 talk := s.talk + [Said(o.hasText)],
                 phase := Executing(if o.calls[0].kind.Command? then PrepareReady else ToolReady),
                 revision := s.revision + 1))
  }

  /** An attempt that did not finish: one automatic retry, otherwise the run waits, and its budget is gone. */
  function Fail(s: State, o: Observation): State
    requires s.Run? && !o.Finished?
  {
    if o.NotStarted? && o.retryable && AttemptsAt(s.attempts, s.step) < 2 then
      s.(phase := Executing(AwaitingAttempt), revision := s.revision + 1)
    else
      s.(phase := AwaitingRetry, budget := None, dispatched := false, action := None, output := None,
         revision := s.revision + 1)
  }

  function CompleteStep(s: State, e: Event): Option<State>
    requires s.Run? && e.StepCompleted?
  {
    if s.phase != Executing(ModelInFlight) || s.inFlight != Some(e.effect) || !e.effect.ModelStep? || s.attempts == []
    then None
    else
      var at := |s.attempts| - 1;
      var current := s.attempts[at];
      if current.step != s.step || current.observation.Some? || current.attemptId != e.observation.attemptId then None
      else
        var observed := s.(attempts := s.attempts[at := current.(observation := Some(e.observation))]);
        if e.observation.Finished? then Finish(observed, e.observation) else Some(Fail(observed, e.observation))
  }

  // ----- tools -----

  function CompleteRead(s: State, e: Event): Option<State>
    requires s.Run? && e.ReadCompleted?
  {
    if s.phase != Executing(ToolInFlight) || s.inFlight != Some(e.effect) || s.tool.None? then None
    else if e.result.ReadFailed? && !(s.budget.Some? && e.result.retryable) then Some(End(s, Blocked))
    else
      var budget := if s.budget.None? then None
                    else Some(s.budget.value.(usage := s.budget.value.usage.(
                                toolContentBytes := s.budget.value.usage.toolContentBytes + e.result.bytes)));
      Some(s.(budget := budget, inFlight := None, step := s.step + 1, phase := Executing(ModelReady),
              revision := s.revision + 1))
  }

  /** The approval names the revision it was prepared for. */
  function Propose(s: State, e: Event): Option<State>
    requires s.Run? && e.CommandProposed?
  {
    if s.phase != Executing(PrepareInFlight) || s.inFlight != Some(e.effect) || !e.effect.PrepareCommand?
       || e.expectedRevision != s.revision + 1 then None
    else Some(s.(action := Some(e.actionId), inFlight := None, phase := AwaitingApproval, revision := s.revision + 1))
  }

  function Resolve(s: State, e: Event): Option<State>
    requires s.Run? && e.ApprovalResolved?
  {
    if s.phase != AwaitingApproval || s.action != Some(e.actionId) then None
    else if e.approve then
      Some(s.(phase := Executing(ConsumeReady), dispatched := false, inFlight := None, revision := s.revision + 1))
    else if s.tool.None? then None
    else Some(s.(phase := Executing(ModelReady), inFlight := None, step := s.step + 1, revision := s.revision + 1))
  }

  function Consume(s: State, e: Event): Option<State>
    requires s.Run? && e.ApprovalConsumed?
  {
    if s.phase != Executing(ConsumeReady) || s.action != Some(e.actionId) then None
    else Some(s.(phase := Executing(ActionReady), revision := s.revision + 1))
  }

  function JoinedBytes(chunks: seq<Text>): nat {
    ByteLength(Joined(chunks))
  }

  /** decodeUtf8Base64: it drops a byte order mark of each chunk. */
  function DecodeChunk(content: seq<Byte>, byteLength: nat): Option<Text> {
    if |content| != byteLength then None else Decode(content)
  }

  predicate Commanding(s: State, effect: Effect) {
    && s.Run? && s.phase == Executing(ActionInFlight) && s.inFlight == Some(effect) && effect.RunCommand?
    && s.output.Some? && s.output.value.actionId == effect.actionId && s.action.Some?
  }

  function ObserveOutput(s: State, e: Event): Option<State>
    requires s.Run? && e.CommandOutput?
  {
    var content := DecodeChunk(e.content, e.byteLength);
    if !Commanding(s, e.effect) || content.None? then None
    else
      var previous := if e.stream.Stdout? then s.output.value.stdout else s.output.value.stderr;
      var next := previous + [content.value];
      if e.index != |previous| || JoinedBytes(next) > STREAM_BYTES then None
      else
        var output := if e.stream.Stdout? then s.output.value.(stdout := next) else s.output.value.(stderr := next);
        Some(s.(output := Some(output), revision := s.revision + 1))
  }

  /** The reported byte counts must be those of the decoded chunks. */
  function CompleteCommand(s: State, e: Event): Option<State>
    requires s.Run? && e.CommandCompleted?
  {
    if !Commanding(s, e.effect) || s.tool.None? || !s.tool.value.kind.Command?
       || JoinedBytes(s.output.value.stdout) != e.report.stdoutBytes
       || JoinedBytes(s.output.value.stderr) != e.report.stderrBytes
       || e.report.startedAt > e.report.completedAt || e.report.exited != e.report.exitCode.Some? then None
    else if !e.report.cleanedUp then Some(End(s, Blocked))
    else
      var bytes := e.report.stdoutBytes + e.report.stderrBytes;
      if s.budget.Some?
         && (s.budget.value.usage.commandOutputBytes + bytes > s.budget.value.grant.commandOutputBytes
             || s.budget.value.usage.toolContentBytes + e.report.visibleBytes > s.budget.value.grant.toolContentBytes) then None
      else
        var budget := if s.budget.None? then None
                      else Some(s.budget.value.(usage := s.budget.value.usage.(
                                  commandOutputBytes := s.budget.value.usage.commandOutputBytes + bytes,
                                  toolContentBytes := s.budget.value.usage.toolContentBytes + e.report.visibleBytes)));
        Some(s.(budget := budget, inFlight := None, step := s.step + 1, phase := Executing(ModelReady),
                revision := s.revision + 1))
  }

  // ----- reduce -----

  const NO_USAGE := Usage(Derived(0, 0, 0), 0, 0, 0, 0, 0)

  function Start(e: Event): State
    requires e.RunStarted?
  {
    Run(Executing(ModelReady), 1, 1, if e.grant.None? then None else Some(Budget(e.grant.value, NO_USAGE)),
        [], false, None, false, [], None, 0, None, None, [])
  }

  /** The state after a legal event; None for an illegal transition. */
  function Reduce(s: State, e: Event): Option<State> {
    if s.Idle? then if e.RunStarted? then Some(Start(e)) else None
    else if s.phase.Terminal? then None
    else
      match e
      case RunStarted(_) => None
      case InputAccepted(_, _, _, _, _, _) => AcceptInput(s, e)
      case InputDelivered(_, _) => DeliverInput(s, e)
      case EffectRequested(effect) => Request(s, effect)
      case DispatchStarted(effect) => Dispatch(s, effect)
      case AttemptStarted(_, _) => StartAttempt(s, e)
      case StepCompleted(_, _) => CompleteStep(s, e)
      case RetryRequested =>
        if !s.phase.AwaitingRetry? then None
        else Some(s.(phase := Executing(AwaitingAttempt), revision := s.revision + 1))
      case ReadCompleted(_, _) => CompleteRead(s, e)
      case CommandProposed(_, _, _) => Propose(s, e)
      case ApprovalResolved(_, _) => Resolve(s, e)
      case ApprovalConsumed(_) => Consume(s, e)
      case CommandOutput(_, _, _, _, _) => ObserveOutput(s, e)
      case CommandCompleted(_, _) => CompleteCommand(s, e)
      case RunCancelled => Some(End(s, Cancelled))
      case RunBlocked => Some(End(s, Blocked))
  }
}
