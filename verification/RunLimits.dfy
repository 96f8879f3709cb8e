/** Legal runs that lose what they did: the exact conditions, for all states (reducer.ts, runtime.ts, run-command.ts). */
module RunLimits {
  import opened Results
  import opened Kernel
  import opened KernelFacts
  import opened RuntimeJournal
  import opened EngineFacts

  // ----- an input accepted while a command is being prepared -----

  /** Applying acceptance events one after the other. */
  function Accepting(s: State, events: seq<Event>): Option<State> {
    if events == [] then Some(s)
    else
      var before := Accepting(s, events[..|events| - 1]);
      if before.None? || !events[|events| - 1].InputAccepted? then None else Reduce(before.value, events[|events| - 1])
  }

  lemma {:induction false} AcceptingMoves(s: State, events: seq<Event>)
    requires s.Run? && Accepting(s, events).Some?
    ensures var t := Accepting(s, events).value;
            t.Run? && t == s.(inputs := t.inputs, revision := s.revision + |events|)
  {
    if events != [] { AcceptingMoves(s, events[..|events| - 1]); }
  }

  lemma Requested(s: State, effect: Effect, next: State)
    requires effect.PrepareCommand? && Reduce(s, EffectRequested(effect)) == Some(next)
    ensures s.Run? && next == s.(inFlight := Some(effect), phase := Executing(PrepareInFlight), dispatched := false,
                                 revision := s.revision + 1)
    ensures effect.expectedRevision == s.revision + 3
  {
  }

  lemma ProposalLegal(s: State, effect: Effect, action: Id)
    requires s.Run? && s.phase == Executing(PrepareInFlight) && s.inFlight == Some(effect) && effect.PrepareCommand?
    ensures Reduce(s, CommandProposed(effect, action, effect.expectedRevision)).Some? <==> effect.expectedRevision == s.revision + 1
  {
  }

  /** The proposal a preparation was decided for is legal exactly when no input was accepted between the decision
      and the proposal; each one moves the revision the approval names. */
  lemma ProposalLegalIff(s: State, effect: Effect, first: seq<Event>, second: seq<Event>, action: Id,
                         requested: State, asked: State, dispatched: State, ready: State)
    requires effect.PrepareCommand? && Reduce(s, EffectRequested(effect)) == Some(requested)
    requires Accepting(requested, first) == Some(asked) && Reduce(asked, DispatchStarted(effect)) == Some(dispatched)
    requires Accepting(dispatched, second) == Some(ready)
    ensures Reduce(ready, CommandProposed(effect, action, effect.expectedRevision)).Some? <==> first == [] && second == []
  {
    hide Reduce, Accepting;
    Requested(s, effect, requested);
    AcceptingMoves(requested, first);
    ReduceFlight(asked, DispatchStarted(effect));
    AcceptingMoves(dispatched, second);
    ProposalLegal(ready, effect, action);
  }

  /** The rejected preparation stays in flight and dispatched, where only ending the run, an input or nothing
      that settles it is legal. */
  lemma RejectedPreparationIsStuck(s: State, e: Event)
    requires s.Run? && s.phase == Executing(PrepareInFlight) && s.inFlight.Some? && s.inFlight.value.PrepareCommand?
    requires s.dispatched && s.revision + 1 > s.inFlight.value.expectedRevision && Reduce(s, e).Some?
    requires e.CommandProposed? ==> e.expectedRevision == s.inFlight.value.expectedRevision
    ensures e.InputAccepted? || e.RunBlocked? || e.RunCancelled?
    ensures var t := Reduce(s, e).value;
            t.Run? && (t.phase.Terminal? || (t.phase == s.phase && t.inFlight == s.inFlight && t.dispatched && t.revision > s.revision))
  {
  }

  // ----- an interrupted run loses its budget -----

  /** Once an attempt is interrupted or its outcome unknown, no later state of the run has a budget, so no input
      is accepted any more. */
  lemma BudgetStaysGone(s: State, e: Event)
    requires s.Run? && s.budget.None? && Reduce(s, e).Some?
    ensures Reduce(s, e).value.Run? && Reduce(s, e).value.budget.None? && !e.InputAccepted?
  {
  }

  /** Committing an attempt's outcome leaves a journal over the plain ceiling unable to reopen exactly when the
      attempt neither finished nor is retried automatically. */
  lemma InterruptionStopsReopening(records: seq<Record>, r: Record)
    requires Replay(records).Some? && Budgeted(Replay(records).value) && Bytes(records) > PLAIN_JOURNAL_BYTES
    requires r.event.StepCompleted? && Replay(records + [r]).Some?
    ensures !Reopens(records + [r]) <==> Replay(records + [r]).value.phase.AwaitingRetry?
    ensures !Reopens(records + [r]) ==> !r.event.observation.Finished?
    ensures Replay(records + [r]).value.phase.AwaitingRetry? <==>
              !r.event.observation.Finished?
              && !(r.event.observation.NotStarted? && r.event.observation.retryable
                   && AttemptsAt(Replay(records).value.attempts, Replay(records).value.step) < 2)
  {
  }
}
