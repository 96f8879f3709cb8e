/** What a run's budget counts, how runs end and in what order inputs are delivered, said from the journal
    (reducer.ts). */
module RunAccounts {
  import opened Results
  import opened Kernel
  import opened KernelFacts
  import opened RuntimeJournal

  // ----- the budget counts what the journal records -----

  /** The figures that a journal's records add up to. */
  datatype Account = Account(answers: nat, asked: nat, proposed: nat, output: nat, content: nat)

  /** What one record adds: an answer of the model, a tool call that is carried out, a command's output, and the content that
      the model gets to see. */
  function Adds(e: Event): Account {
    match e
    case StepCompleted(_, Finished(_, _, _, _)) => Account(1, 0, 0, 0, 0)
    case EffectRequested(ReadTool(_)) => Account(0, 1, 0, 0, 0)
    case EffectRequested(PrepareCommand(_, _)) => Account(0, 1, 1, 0, 0)
    case ReadCompleted(_, ReadDone(bytes)) => Account(0, 0, 0, 0, bytes)
    case ReadCompleted(_, ReadFailed(_, bytes)) => Account(0, 0, 0, 0, bytes)
    case CommandCompleted(_, r) => Account(0, 0, 0, r.stdoutBytes + r.stderrBytes, r.visibleBytes)
    case _ => Account(0, 0, 0, 0, 0)
  }

  function Plus(a: Account, b: Account): Account {
    Account(a.answers + b.answers, a.asked + b.asked, a.proposed + b.proposed, a.output + b.output, a.content + b.content)
  }

  function AccountOf(records: seq<Record>): Account {
    if records == [] then Account(0, 0, 0, 0, 0)
    else Plus(AccountOf(records[..|records| - 1]), Adds(records[|records| - 1].event))
  }

  /** A call that was granted and not requested yet. */
  function Open(p: Phase): nat {
    if p == Executing(ToolReady) || p == Executing(PrepareReady) then 1 else 0
  }

  /** The usage is what was recorded, and within the grant; `content` asks for the same of a read in progress. */
  predicate Accounted(s: State, a: Account, small: bool) {
    Going(s) ==>
      var (u, g) := (s.budget.value.usage, s.budget.value.grant);
      && u.modelSteps == a.answers && u.toolCalls == a.asked + Open(s.phase)
      && u.actionProposals == a.proposed + (if s.phase == Executing(PrepareReady) then 1 else 0)
      && u.commandOutputBytes == a.output && u.toolContentBytes == a.content
      && u.modelSteps <= g.modelSteps && u.toolCalls <= g.toolCalls && u.actionProposals <= g.actionProposals
      && u.commandOutputBytes <= g.commandOutputBytes
      && (small ==>
            && u.toolContentBytes <= g.toolContentBytes
            && (s.phase == Executing(ToolReady) || s.phase == Executing(ToolInFlight) ==>
                  u.toolContentBytes + 32_768 <= g.toolContentBytes))
  }

  /** The run has a budget and has not ended. */
  predicate Going(s: State) {
    s.Run? && s.budget.Some? && !s.phase.Terminal?
  }

  lemma FinishAccounted(s: State, o: Observation, a: Account, small: bool)
    requires Going(s) && s.phase == Executing(ModelInFlight) && Accounted(s, a, small)
    requires o.Finished? && (o.stop <==> o.calls == []) && Finish(s, o).Some?
    ensures Accounted(Finish(s, o).value, Plus(a, Account(1, 0, 0, 0, 0)), small)
  {
    hide Pending, CloseAll;
    if |o.calls| == 1 {
      assert o.calls[1..] == [];
      assert Proposals(o.calls) == (if o.calls[0].kind.Command? then 1 else 0);
      assert DeclaredBytes(o.calls) == (if o.calls[0].kind.Command? then 147_456 else 32_768);
    }
  }

  lemma StepAccounted(s: State, e: Event, a: Account, small: bool)
    requires s.Run? && e.StepCompleted? && Accounted(s, a, small) && Bounded(e) && Reduce(s, e).Some?
    ensures Accounted(Reduce(s, e).value, Plus(a, Adds(e)), small)
  {
    hide Finish;
    if e.observation.Finished? && s.budget.Some? {
      var at := |s.attempts| - 1;
      var observed := s.(attempts := s.attempts[at := s.attempts[at].(observation := Some(e.observation))]);
      FinishAccounted(observed, e.observation, a, small);
    } else if e.observation.Finished? {
      NoBudgetLater(s, e);
    }
  }

  lemma NoBudgetLater(s: State, e: Event)
    requires s.Run? && s.budget.None? && Reduce(s, e).Some?
    ensures Reduce(s, e).value.Run? && Reduce(s, e).value.budget.None?
  {
    hide Pending, CloseAll, Proposals, DeclaredBytes, JoinedBytes, DecodeChunk;
  }

  predicate SmallRead(e: Event) {
    e.ReadCompleted? ==> e.result.bytes <= 32_768
  }

  lemma Started(s: State, e: Event)
    requires s.Idle? && Reduce(s, e).Some?
    ensures e.RunStarted? && Reduce(s, e).value == Start(e)
  {
  }

  lemma StartAccounted(e: Event, small: bool)
    requires e.RunStarted?
    ensures Accounted(Start(e), Account(0, 0, 0, 0, 0), small)
    ensures Plus(Account(0, 0, 0, 0, 0), Adds(e)) == Account(0, 0, 0, 0, 0)
  {
  }

  lemma ResultAccounted(s: State, e: Event, a: Account, small: bool)
    requires s.Run? && Accounted(s, a, small) && (e.ReadCompleted? || e.CommandCompleted?) && (small ==> SmallRead(e))
    requires Reduce(s, e).Some?
    ensures Accounted(Reduce(s, e).value, Plus(a, Adds(e)), small)
  {
    hide CloseAll, JoinedBytes;
  }

  lemma OthersAccounted(s: State, e: Event, a: Account, small: bool)
    requires s.Run? && Accounted(s, a, small) && !e.ReadCompleted? && !e.CommandCompleted? && !e.StepCompleted?
    requires Reduce(s, e).Some?
    ensures Accounted(Reduce(s, e).value, Plus(a, Adds(e)), small)
  {
    hide CompleteStep, CompleteRead, CompleteCommand, Pending, CloseAll, JoinedBytes, DecodeChunk, NextInput, AttemptsAt;
  }

  lemma ReduceAccounted(s: State, e: Event, a: Account, small: bool)
    requires Accounted(s, a, small) && Bounded(e) && (small ==> SmallRead(e)) && Reduce(s, e).Some?
    requires s.Idle? ==> a == Account(0, 0, 0, 0, 0)
    ensures Accounted(Reduce(s, e).value, Plus(a, Adds(e)), small)
  {
    hide Reduce, Accounted, Adds, Bounded;
    if s.Idle? {
      Started(s, e);
      StartAccounted(e, small);
    } else if e.StepCompleted? {
      StepAccounted(s, e, a, small);
    } else if e.ReadCompleted? || e.CommandCompleted? {
      ResultAccounted(s, e, a, small);
    } else {
      OthersAccounted(s, e, a, small);
    }
  }

  /** While a run has its budget, the budget's figures are those of its journal: every answer of the model was one step, every
      call charged was requested or is about to be, and the bytes are those reported; none exceeds what was granted. */
  lemma {:induction false} BudgetAccounts(records: seq<Record>)
    requires Replay(records).Some? && AllBounded(records)
    ensures Accounted(Replay(records).value, AccountOf(records), AllSmall(records))
  {
    if records != [] {
      hide Reduce, Accounted, Adds;
      var front, last := records[..|records| - 1], records[|records| - 1];
      LastOne(records);
      hide AllBounded, AllSmall, Bounded, SmallRead;
      BudgetAccounts(front);
      if front != [] { ReplayedState(front); }
      AccountedLess(Replay(front).value, AccountOf(front), AllSmall(front), AllSmall(records));
      ReduceAccounted(Replay(front).value, last.event, AccountOf(front), AllSmall(records));
    }
  }

  predicate AllBounded(records: seq<Record>) {
    forall k :: 0 <= k < |records| ==> Bounded(records[k].event)
  }

  /** Every read showed the model no more than 32,768 bytes. */
  predicate AllSmall(records: seq<Record>) {
    forall k :: 0 <= k < |records| ==> SmallRead(records[k].event)
  }

  lemma LastOne(records: seq<Record>)
    requires records != []
    ensures var front, last := records[..|records| - 1], records[|records| - 1];
            && (AllBounded(records) ==> AllBounded(front) && Bounded(last.event))
            && (AllSmall(records) ==> AllSmall(front) && SmallRead(last.event))
  {
    var front := records[..|records| - 1];
    assert forall k :: 0 <= k < |front| ==> front[k] == records[k];
  }

  lemma AccountedLess(s: State, a: Account, some: bool, small: bool)
    requires Accounted(s, a, some) && (small ==> some)
    ensures Accounted(s, a, small)
  {
  }

  // ----- what becomes of a step -----

  /** How many of the calls would run a command. */
  function Commands(calls: seq<Call>): nat {
    if calls == [] then 0 else Commands(calls[..|calls| - 1]) + if calls[|calls| - 1].kind.Command? then 1 else 0
  }

  lemma {:induction false} CallsAppend(calls: seq<Call>, last: Call)
    ensures Proposals(calls + [last]) == Proposals(calls) + if last.kind.Command? then 1 else 0
    ensures DeclaredBytes(calls + [last]) == DeclaredBytes(calls) + if last.kind.Command? then 147_456 else 32_768
  {
    var all := calls + [last];
    if calls == [] {
      assert all == [last] && all[1..] == [];
    } else {
      assert all[1..] == calls[1..] + [last];
      CallsAppend(calls[1..], last);
    }
  }

  lemma {:induction false} CallsCounted(calls: seq<Call>)
    ensures Proposals(calls) == Commands(calls) <= |calls|
    ensures DeclaredBytes(calls) == 147_456 * Commands(calls) + 32_768 * (|calls| - Commands(calls))
  {
    if calls != [] {
      var front, last := calls[..|calls| - 1], calls[|calls| - 1];
      CallsCounted(front);
      CallsAppend(front, last);
      assert calls == front + [last];
    }
  }

  /** The step itself is not affordable, or its answer would need a step after the last one. */
  predicate StepTooMany(b: Budget, step: nat, calls: seq<Call>) {
    b.usage.modelSteps + 1 > b.grant.modelSteps || (calls != [] && step >= b.grant.modelSteps)
  }

  /** What the calls may cost is not affordable: 131,072 bytes of output for any command, and of content 147,456 bytes for
      a command and 32,768 for a read. */
  predicate CallsTooMany(b: Budget, calls: seq<Call>) {
    var (u, g, commands) := (b.usage, b.grant, Commands(calls));
    || u.toolCalls + |calls| > g.toolCalls || u.actionProposals + commands > g.actionProposals
    || (commands > 0 && u.commandOutputBytes + 131_072 > g.commandOutputBytes)
    || u.toolContentBytes + 147_456 * commands + 32_768 * (|calls| - commands) > g.toolContentBytes
  }

  datatype Verdict = Illegal | Ended(outcome: Outcome) | Onward | CarryOut(call: Call) | Again | Wait

  /** What a run makes of an observation. */
  function Judge(s: State, o: Observation): Verdict
    requires s.Run?
  {
    match o
    case Finished(_, stop, hasText, calls) =>
      if s.budget.Some? && StepTooMany(s.budget.value, s.step, calls) then Ended(Blocked)
      else if s.budget.Some? && CallsTooMany(s.budget.value, calls) then if calls == [] then Illegal else Onward
      else if calls == [] then
        if !hasText then Illegal
        else if exists k :: 0 <= k < |s.inputs| && s.inputs[k].state.Accepted? then Onward else Ended(Answered)
      else if s.budget.None? && (s.step >= 4 || s.tools >= 4) then Ended(Blocked)
      else if |calls| > 1 then Onward
      else CarryOut(calls[0])
    case NotStarted(_, retryable) => if retryable && AttemptsAt(s.attempts, s.step) == 1 then Again else Wait
    case _ => Wait
  }

  /** The stage and step that a verdict leads to, and what else it decides. */
  predicate Follows(s: State, v: Verdict, next: Option<State>)
    requires s.Run?
  {
    match v
    case Illegal => next.None?
    case Ended(outcome) => next.Some? && next.value.Run? && next.value.phase == Terminal(outcome)
    case Onward =>
      next.Some? && next.value.Run? && next.value.phase == Executing(ModelReady) && next.value.step == s.step + 1
      && next.value.inFlight.None? && next.value.inputs == s.inputs
    case CarryOut(call) =>
      next.Some? && next.value.Run? && next.value.step == s.step && next.value.inFlight.None? && next.value.tool == Some(call)
      && next.value.phase == (match call.kind case Read => Executing(ToolReady) case Command => Executing(PrepareReady))
    case Again =>
      next.Some? && next.value.Run? && next.value.phase == Executing(AwaitingAttempt) && next.value.step == s.step
      && next.value.budget == s.budget
    case Wait =>
      next.Some? && next.value.Run? && next.value.phase == AwaitingRetry && next.value.step == s.step && next.value.budget.None?
  }

  lemma FinishJudged(s: State, o: Observation)
    requires s.Run? && o.Finished? && (o.stop <==> o.calls == [])
    ensures Follows(s, Judge(s, o), Finish(s, o))
  {
    hide CloseAll, Pending;
    CallsCounted(o.calls);
    if Pending(s.inputs) == [] { PendingNone(s.inputs); } else { var k := PendingFirst(s.inputs); }
  }

  /** The observation of the attempt in flight is judged by the budget, the calls, the text and the inputs that wait. */
  lemma StepJudged(s: State, effect: Effect, o: Observation)
    requires s.Run? && s.phase == Executing(ModelInFlight) && s.inFlight == Some(effect) && effect.ModelStep? && s.attempts != []
    requires s.attempts[|s.attempts| - 1] == Attempt(o.attemptId, s.step, None) && Bounded(StepCompleted(effect, o))
    ensures Follows(s, Judge(s, o), Reduce(s, StepCompleted(effect, o)))
  {
    hide Finish, Judge, Follows;
    var at := |s.attempts| - 1;
    var observed := s.(attempts := s.attempts[at := s.attempts[at].(observation := Some(o))]);
    if o.Finished? {
      FinishJudged(observed, o);
      JudgedAlike(s, observed, o);
    } else {
      FailJudged(s, observed, o);
    }
  }

  lemma JudgedAlike(s: State, t: State, o: Observation)
    requires s.Run? && t.Run? && t == s.(attempts := t.attempts) && o.Finished?
    ensures Judge(s, o) == Judge(t, o)
    ensures forall next :: Follows(t, Judge(t, o), next) ==> Follows(s, Judge(s, o), next)
  {
    hide Commands;
  }

  lemma FailJudged(s: State, t: State, o: Observation)
    requires s.Run? && s.attempts != [] && s.attempts[|s.attempts| - 1].step == s.step && !o.Finished?
    requires t == s.(attempts := s.attempts[|s.attempts| - 1 := s.attempts[|s.attempts| - 1].(observation := Some(o))])
    ensures Follows(s, Judge(s, o), Some(Fail(t, o)))
  {
    assert t.attempts[..|t.attempts| - 1] == s.attempts[..|s.attempts| - 1];
  }

  /** The stage and step after any other record. */
  lemma StagesFollow(s: State, e: Event)
    requires s.Run? && !e.StepCompleted? && Reduce(s, e).Some?
    ensures var t := Reduce(s, e).value;
            && t.Run?
            && match e
               case InputDelivered(_, _) => t.phase == s.phase == Executing(ModelReady) && t.step == s.step
               case DispatchStarted(_) => t.phase == s.phase && t.step == s.step
               case InputAccepted(_, _, _, _, _, _) => t.phase == s.phase && t.step == s.step
               case CommandOutput(_, _, _, _, _) => t.phase == s.phase == Executing(ActionInFlight) && t.step == s.step
               case EffectRequested(ModelStep(step)) =>
                 s.phase == Executing(ModelReady) && t.phase == Executing(AwaitingAttempt) && t.step == s.step == step
               case EffectRequested(ReadTool(_)) =>
                 s.phase == Executing(ToolReady) && t.phase == Executing(ToolInFlight) && t.step == s.step
               case EffectRequested(PrepareCommand(_, _)) =>
                 s.phase == Executing(PrepareReady) && t.phase == Executing(PrepareInFlight) && t.step == s.step
               case EffectRequested(RunCommand(_)) =>
                 s.phase == Executing(ActionReady) && t.phase == Executing(ActionInFlight) && t.step == s.step
               case AttemptStarted(_, _) =>
                 s.phase == Executing(AwaitingAttempt) && t.phase == Executing(ModelInFlight) && t.step == s.step
               case RetryRequested => s.phase == AwaitingRetry && t.phase == Executing(AwaitingAttempt) && t.step == s.step
               case ReadCompleted(_, result) =>
                 s.phase == Executing(ToolInFlight)
                 && if result.ReadDone? || (result.retryable && s.budget.Some?)
                    then t.phase == Executing(ModelReady) && t.step == s.step + 1 else t.phase == Terminal(Blocked)
               case CommandProposed(_, actionId, _) =>
                 s.phase == Executing(PrepareInFlight) && t.phase == AwaitingApproval && t.action == Some(actionId) && t.step == s.step
               case ApprovalResolved(_, true) => s.phase == AwaitingApproval && t.phase == Executing(ConsumeReady) && t.step == s.step
               case ApprovalResolved(_, false) =>
                 s.phase == AwaitingApproval && t.phase == Executing(ModelReady) && t.step == s.step + 1
               case ApprovalConsumed(_) => s.phase == Executing(ConsumeReady) && t.phase == Executing(ActionReady) && t.step == s.step
               case CommandCompleted(_, report) =>
                 s.phase == Executing(ActionInFlight)
                 && if report.cleanedUp then t.phase == Executing(ModelReady) && t.step == s.step + 1 else t.phase == Terminal(Blocked)
               case RunCancelled => t.phase == Terminal(Cancelled)
               case RunBlocked => t.phase == Terminal(Blocked)
               case _ => false
  {
    hide CompleteStep, Pending, CloseAll, JoinedBytes, DecodeChunk, NextInput, AttemptsAt;
  }

  // ----- how a run ends -----

  predicate NonePending(inputs: seq<Input>) {
    forall k :: 0 <= k < |inputs| ==> !inputs[k].state.Accepted?
  }

  predicate AllDelivered(inputs: seq<Input>) {
    forall k :: 0 <= k < |inputs| ==> inputs[k].state.Delivered?
  }

  predicate NoneClosed(inputs: seq<Input>) {
    forall k :: 0 <= k < |inputs| ==> !inputs[k].state.Closed?
  }

  /** The record that ended the run, and what it ended as. */
  predicate EndsAs(outcome: Outcome, e: Event) {
    match outcome
    case Cancelled => e.RunCancelled?
    case Answered => e.StepCompleted? && e.observation.Finished? && e.observation.stop && e.observation.hasText
    case Blocked =>
      || e.RunBlocked?
      || (e.StepCompleted? && e.observation.Finished?)
      || (e.ReadCompleted? && e.result.ReadFailed?)
      || (e.CommandCompleted? && !e.report.cleanedUp)
  }

  lemma {:induction false} PendingNone(inputs: seq<Input>)
    requires Pending(inputs) == []
    ensures NonePending(inputs)
  {
    if inputs != [] { PendingNone(inputs[..|inputs| - 1]); }
  }

  predicate EndedWell(s: State, e: Event) {
    s.Run? ==>
      if s.phase.Terminal? then
        EndsAs(s.phase.outcome, e) && NonePending(s.inputs) && (s.phase.outcome.Answered? ==> AllDelivered(s.inputs))
      else NoneClosed(s.inputs) && !e.RunCancelled? && !e.RunBlocked?
  }

  lemma FinishEnds(s: State, o: Observation)
    requires s.Run? && NoneClosed(s.inputs) && o.Finished? && Finish(s, o).Some?
    ensures var t := Finish(s, o).value;
            && t.Run?
            && if t.phase.Terminal? then
                 && NonePending(t.inputs) && !t.phase.outcome.Cancelled?
                 && (t.phase.outcome.Answered? ==> o.stop && o.hasText && AllDelivered(t.inputs))
               else t.inputs == s.inputs
  {
    hide Proposals, DeclaredBytes, ToolsExceeded, StepsExceeded, Pending;
    if Pending(s.inputs) == [] { PendingNone(s.inputs); }
  }

  lemma ReduceEnds(s: State, e: Event)
    requires s.Run? && !s.phase.Terminal? && NoneClosed(s.inputs) && Reduce(s, e).Some?
    ensures Reduce(s, e).value.Run? && EndedWell(Reduce(s, e).value, e)
  {
    if e.StepCompleted? {
      hide Finish;
      if e.observation.Finished? {
        var at := |s.attempts| - 1;
        FinishEnds(s.(attempts := s.attempts[at := s.attempts[at].(observation := Some(e.observation))]), e.observation);
      }
    } else {
      hide CompleteStep, Pending, JoinedBytes, DecodeChunk, NextInput, AttemptsAt;
    }
  }

  /** An ended run has no input pending and nothing recorded after the record that ended it; it is answered only if every
      input was delivered, and only while it goes on is none closed. */
  lemma {:induction false} RunsEnd(records: seq<Record>)
    requires records != [] && Replay(records).Some?
    ensures Replay(records).value.Run? && EndedWell(Replay(records).value, records[|records| - 1].event)
    ensures Replay(records[..|records| - 1]).Some?
    ensures Replay(records[..|records| - 1]).value.Run? ==> !Replay(records[..|records| - 1]).value.phase.Terminal?
  {
    var front := records[..|records| - 1];
    if front != [] {
      RunsEnd(front);
      ReduceEnds(Replay(front).value, records[|records| - 1].event);
    }
  }

  // ----- the order of deliveries -----

  /** Among inputs of one mode an earlier one never waits behind a later one that was delivered. */
  predicate InOrder(inputs: seq<Input>) {
    forall i, j :: 0 <= i < j < |inputs| && inputs[i].mode == inputs[j].mode && inputs[j].state.Delivered? ==>
      !inputs[i].state.Accepted?
  }

  /** The next input is the first pending steer, or without one the first pending input of all. */
  predicate IsNext(inputs: seq<Input>, k: nat) {
    && k < |inputs| && inputs[k].state.Accepted?
    && forall i :: 0 <= i < |inputs| && inputs[i].state.Accepted? ==>
         || (inputs[i].mode.Steer? && inputs[k].mode.Steer? && k <= i)
         || (inputs[i].mode.Queue? && (inputs[k].mode.Steer? || k <= i))
  }

  predicate FirstOf(inputs: seq<Input>, k: nat, m: Option<Mode>) {
    && k < |inputs| && inputs[k].state.Accepted? && (m.Some? ==> inputs[k].mode == m.value)
    && forall i :: 0 <= i < k && inputs[i].state.Accepted? ==> m.Some? && inputs[i].mode != m.value
  }

  lemma {:induction false} PendingFirst(inputs: seq<Input>) returns (k: nat)
    requires Pending(inputs) != []
    ensures FirstOf(inputs, k, None) && inputs[k] == Pending(inputs)[0]
  {
    var front := inputs[..|inputs| - 1];
    if Pending(front) != [] {
      k := PendingFirst(front);
    } else {
      PendingNone(front);
      k := |inputs| - 1;
    }
  }

  lemma {:induction false} NoSteer(inputs: seq<Input>)
    requires OfMode(Pending(inputs), Steer) == []
    ensures forall i :: 0 <= i < |inputs| && inputs[i].state.Accepted? ==> inputs[i].mode.Queue?
  {
    if inputs != [] {
      var front, pending := inputs[..|inputs| - 1], Pending(inputs[..|inputs| - 1]);
      assert (pending + [inputs[|inputs| - 1]])[..|pending|] == pending && pending + [] == pending;
      NoSteer(front);
    }
  }

  lemma {:induction false} SteerFirst(inputs: seq<Input>) returns (k: nat)
    requires OfMode(Pending(inputs), Steer) != []
    ensures FirstOf(inputs, k, Some(Steer)) && inputs[k] == OfMode(Pending(inputs), Steer)[0]
  {
    var front, pending := inputs[..|inputs| - 1], Pending(inputs[..|inputs| - 1]);
    assert (pending + [inputs[|inputs| - 1]])[..|pending|] == pending && pending + [] == pending;
    if OfMode(pending, Steer) != [] {
      k := SteerFirst(front);
    } else {
      NoSteer(front);
      k := |inputs| - 1;
    }
  }

  /** What is delivered is the next input, and a queued one only when the queue is ready. */
  lemma DeliversNext(s: State, messageId: Id, turnId: Id) returns (k: nat)
    requires s.Run? && Distinct(s.inputs) && Reduce(s, InputDelivered(messageId, turnId)).Some?
    ensures IsNext(s.inputs, k) && s.inputs[k].messageId == messageId && (s.inputs[k].mode.Queue? ==> s.queueReady)
    ensures Reduce(s, InputDelivered(messageId, turnId)).value.inputs == s.inputs[k := s.inputs[k].(state := Delivered(turnId))]
  {
    if OfMode(Pending(s.inputs), Steer) != [] {
      k := SteerFirst(s.inputs);
    } else {
      k := PendingFirst(s.inputs);
      NoSteer(s.inputs);
    }
  }

  lemma DeliveredInOrder(inputs: seq<Input>, k: nat, turnId: Id)
    requires InOrder(inputs) && IsNext(inputs, k)
    ensures InOrder(inputs[k := inputs[k].(state := Delivered(turnId))])
  {
  }

  /** An answer that stops completes the turn: from then on, until the next delivery, queued inputs may go. */
  function TurnComplete(records: seq<Record>): bool {
    if records == [] then false
    else
      match records[|records| - 1].event
      case InputDelivered(_, _) => false
      case StepCompleted(_, Finished(_, stop, _, _)) => stop || TurnComplete(records[..|records| - 1])
      case _ => TurnComplete(records[..|records| - 1])
  }

  lemma FinishReady(s: State, o: Observation)
    requires s.Run? && o.Finished? && (o.stop <==> o.calls == []) && Finish(s, o).Some?
    ensures var t := Finish(s, o).value;
            t.Run? && (!t.phase.Terminal? ==> (t.queueReady <==> s.queueReady || o.stop))
  {
    hide Pending, CloseAll, Proposals, DeclaredBytes, StepsExceeded;
  }

  lemma ReduceReady(s: State, e: Event)
    requires s.Run? && Bounded(e) && Reduce(s, e).Some?
    ensures var t := Reduce(s, e).value;
            && t.Run?
            && (!t.phase.Terminal? ==>
                  t.queueReady == match e
                                  case InputDelivered(_, _) => false
                                  case StepCompleted(_, Finished(_, stop, _, _)) => stop || s.queueReady
                                  case _ => s.queueReady)
  {
    if e.StepCompleted? && e.observation.Finished? {
      hide Finish;
      var at := |s.attempts| - 1;
      FinishReady(s.(attempts := s.attempts[at := s.attempts[at].(observation := Some(e.observation))]), e.observation);
    } else {
      hide Pending, CloseAll, JoinedBytes, DecodeChunk, NextInput, AttemptsAt, Finish;
    }
  }

  lemma OrderStep(s: State, e: Event)
    requires s.Run? && InOrder(s.inputs) && Distinct(s.inputs) && Reduce(s, e).Some?
    ensures InOrder(Reduce(s, e).value.inputs)
  {
    hide Reduce, InOrder, IsNext;
    ReduceInputs(s, e);
    if e.InputDelivered? {
      var k := DeliversNext(s, e.messageId, e.turnId);
      DeliveredInOrder(s.inputs, k, e.turnId);
    } else {
      ReduceFlight(s, e);
      OrderKept(s.inputs, Reduce(s, e).value.inputs);
    }
  }

  lemma OrderKept(a: seq<Input>, b: seq<Input>)
    requires InOrder(a) && (b == a || b == CloseAll(a) || (b != [] && b == a + [b[|b| - 1]] && b[|b| - 1].state.Accepted?))
    ensures InOrder(b)
  {
  }

  /** In every journal inputs of one mode are delivered in the order of their acceptance, and queued ones may go exactly when
      the model has completed an answer since the last delivery. */
  lemma {:induction false} Deliveries(records: seq<Record>)
    requires Replay(records).Some? && Replay(records).value.Run? && AllBounded(records)
    ensures InOrder(Replay(records).value.inputs)
    ensures !Replay(records).value.phase.Terminal? ==> (Replay(records).value.queueReady <==> TurnComplete(records))
  {
    hide Reduce, InOrder, AllBounded;
    LastOne(records);
    var front, e := records[..|records| - 1], records[|records| - 1].event;
    var s := Replay(front).value;
    if s.Run? {
      Deliveries(front);
      ReplayedState(front);
      RunsEnd(records);
      OrderStep(s, e);
      ReduceReady(s, e);
    } else {
      Begins(s, e);
      if front != [] { ReplayedState(front); }
    }
  }

  lemma Begins(s: State, e: Event)
    requires s.Idle? && Reduce(s, e).Some?
    ensures e.RunStarted? && Reduce(s, e).value.Run? && !Reduce(s, e).value.queueReady && InOrder(Reduce(s, e).value.inputs)
  {
  }
}
