/** What subscribers are told of each record, said from the record and the ledger alone (projection.ts). */
module ProjectedEvents {
  import opened Results
  import opened Kernel
  import opened KernelFacts
  import opened RuntimeJournal
  import opened InputLedger
  import opened Reservations
  import opened Projection

  /** One closure for each input that was pending. */
  function ClosedNews(pending: seq<Input>): seq<Product> {
    seq(|pending|, k requires 0 <= k < |pending| => InputUpdated(pending[k].messageId, Closed))
  }

  /** An ended run tells its own outcome, last. */
  function EndNews(after: State): seq<Product>
    requires after.Run?
  {
    match after.phase
    case Terminal(Answered) => [RunTerminal(Answered)]
    case Terminal(Blocked) => [RunTerminal(Blocked)]
    case Terminal(Cancelled) => [RunTerminal(Cancelled)]
    case _ => []
  }

  /** What becomes of the text of an attempt: the final answer, the part that an interrupted one left, or an answer that
      the run goes on from, if the counting of earlier answers finds it. */
  function AnswerNews(s: State, o: Observation, after: State): seq<Product>
    requires s.Run? && after.Run?
  {
    if after.phase == Terminal(Answered) then [ConversationUpdated(Answer(o.attemptId, true))]
    else if after.phase.Terminal? then []
    else if o.Interrupted? then [ConversationUpdated(Answer(o.attemptId, false))]
    else if o.Finished? && o.hasText && Said(false) !in s.talk then [ConversationUpdated(Answer(o.attemptId, true))]
    else []
  }

  function News(s: State, e: Event, after: State): seq<Product>
    requires after.Run? && (s.Run? || e.RunStarted?)
  {
    match e
    case RunStarted(_) => [Snapshot]
    case InputAccepted(_, _, messageId, _, _, _) => [InputUpdated(messageId, Accepted)]
    case InputDelivered(messageId, turnId) => [InputUpdated(messageId, Delivered(turnId)), ConversationUpdated(Message(messageId))]
    case AttemptStarted(attemptId, _) => [AttemptUpdated(attemptId)]
    case StepCompleted(_, o) => [AttemptUpdated(o.attemptId)] + AnswerNews(s, o, after) + EndNews(after)
    case CommandProposed(_, _, _) => [Progress, ApprovalPresented]
    case ReadCompleted(_, _) => [ToolUpdated] + EndNews(after)
    case CommandCompleted(_, _) => [ToolUpdated] + EndNews(after)
    case RunCancelled => ClosedNews(Pending(s.inputs)) + [RunTerminal(Cancelled)]
    case RunBlocked => ClosedNews(Pending(s.inputs)) + [RunTerminal(Blocked)]
    case _ => [Progress]
  }

  function Bodies(drafts: seq<Draft>): seq<Product> {
    seq(|drafts|, k requires 0 <= k < |drafts| => drafts[k].body)
  }

  // ----- the turns of a conversation -----

  /** An answer at the end of the turns is by the last attempt of a step that was answered. */
  lemma {:induction false} LastAnswer(talk: seq<Turn>, attempts: seq<Attempt>)
    ensures var turns := Turns(talk, attempts);
            turns[|turns| - 1].Answer? ==>
              exists p :: 1 <= p <= SaidCount(talk) && LastAttempt(attempts, p).Some?
                          && LastAttempt(attempts, p).value.attemptId == turns[|turns| - 1].attemptId
  {
    if talk != [] {
      var front := talk[..|talk| - 1];
      LastAnswer(front, attempts);
      SpokenAtMost(front);
      var turns := Turns(talk, attempts);
      if turns[|turns| - 1].Answer? && turns != Turns(front, attempts) {
        var p := Spoken(front) + 1;
        assert LastAttempt(attempts, p).Some? && LastAttempt(attempts, p).value.attemptId == turns[|turns| - 1].attemptId;
      }
    }
  }

  /** So it is not by the attempt of a later step. */
  lemma NotByLater(talk: seq<Turn>, attempts: seq<Attempt>, step: nat, attemptId: Id)
    requires SaidCount(talk) < step && AttemptIdsDistinct(attempts) && LastAttempt(attempts, step).Some?
    requires LastAttempt(attempts, step).value.attemptId == attemptId
    ensures var turn := Turns(talk, attempts)[|Turns(talk, attempts)| - 1];
            turn.Answer? ==> turn.attemptId != attemptId
  {
    LastAnswer(talk, attempts);
    var turn := Turns(talk, attempts)[|Turns(talk, attempts)| - 1];
    if turn.Answer? {
      var p :| 1 <= p <= SaidCount(talk) && LastAttempt(attempts, p).Some? && LastAttempt(attempts, p).value.attemptId == turn.attemptId;
      LastAttemptOf(attempts, p);
      LastAttemptOf(attempts, step);
    }
  }

  // ----- one record -----

  lemma StepPhases(s: State, e: Event)
    requires s.Run? && e.StepCompleted? && Reduce(s, e).Some?
    ensures var after := Reduce(s, e).value;
            && after.Run? && !s.phase.Terminal? && s.phase == Executing(ModelInFlight)
            && (after.phase == Terminal(Answered) ==> e.observation.Finished?)
            && (e.observation.Interrupted? ==> after.phase == AwaitingRetry)
            && (e.observation.Finished? ==> after.phase != AwaitingRetry)
            && (after.phase.Terminal? ==> after.phase == Terminal(Answered) || after.phase == Terminal(Blocked))
            && (e.observation.Finished? && !after.phase.Terminal? ==> after.talk == s.talk + [Said(e.observation.hasText)])
            && (!e.observation.Finished? || after.phase.Terminal? ==> after.talk == s.talk)
            && after.attempts != [] && after.attempts[|after.attempts| - 1].attemptId == e.observation.attemptId
            && after.attempts[|after.attempts| - 1].observation == Some(e.observation)
  {
    hide Pending, CloseAll, Proposals, DeclaredBytes, ToolsExceeded, StepsExceeded;
  }

  /** The turn that a completed attempt announces. */
  lemma StepTurn(records: seq<Record>, e: Event)
    requires Replay(records).Some? && Replay(records).value.Run? && e.StepCompleted? && Reduce(Replay(records).value, e).Some?
    ensures var (s, after, o) := (Replay(records).value, Reduce(Replay(records).value, e).value, e.observation);
            && after.Run?
            && (if LastTurn(after).Answer? && LastTurn(after).attemptId == o.attemptId
                then AnswerNews(s, o, after) == [ConversationUpdated(LastTurn(after))] else AnswerNews(s, o, after) == [])
  {
    hide Reduce, Turns, Heard, Spoke, LastAttempt, SaidCount, Staged, LedgerOk;
    var s, o := Replay(records).value, e.observation;
    var after := Reduce(s, e).value;
    StepPhases(s, e);
    if o.Finished? && o.hasText && !after.phase.Terminal? {
      AnswerAttributedIff(records, e);
      ByItself(s, e, after);
    } else if after.phase != Terminal(Answered) && !o.Interrupted? {
      StepEarlier(records, e);
    }
  }

  lemma ByItself(s: State, e: Event, after: State)
    requires s.Run? && after.Run? && e.StepCompleted? && e.observation.Finished? && e.observation.hasText
    requires !after.phase.Terminal? && after.phase != AwaitingRetry && after.talk == s.talk + [Said(true)]
    requires LastTurn(after).Answer?
    ensures LastTurn(after).complete
  {
    assert after.talk[..|s.talk|] == s.talk;
    OnlyComplete(after.talk, after.attempts);
  }

  lemma {:induction false} OnlyComplete(talk: seq<Turn>, attempts: seq<Attempt>)
    ensures forall k :: 0 <= k < |Turns(talk, attempts)| && Turns(talk, attempts)[k].Answer? ==> Turns(talk, attempts)[k].complete
  {
    if talk != [] { OnlyComplete(talk[..|talk| - 1], attempts); }
  }

  /** In the other cases the turns end with an earlier step's answer, if any. */
  lemma StepEarlier(records: seq<Record>, e: Event)
    requires Replay(records).Some? && Replay(records).value.Run? && e.StepCompleted? && Reduce(Replay(records).value, e).Some?
    requires var (after, o) := (Reduce(Replay(records).value, e).value, e.observation);
             after.Run? && after.phase != Terminal(Answered) && !o.Interrupted?
             && (o.Finished? && !after.phase.Terminal? ==> !o.hasText)
    ensures var after := Reduce(Replay(records).value, e).value;
            LastTurn(after).Answer? ==> LastTurn(after).attemptId != e.observation.attemptId
  {
    hide Reduce;
    var s := Replay(records).value;
    var after := Reduce(s, e).value;
    StepPhases(s, e);
    ReplayHeard(records);
    ReplayedState(records);
    ReduceAttempts(s, e);
    CurrentStep(s, e);
    NotByLater(s.talk, after.attempts, s.step, e.observation.attemptId);
    if after.talk != s.talk { assert after.talk[..|s.talk|] == s.talk; }
  }

  lemma {:induction false} ClosuresAre(inputs: seq<Input>, index: nat)
    ensures Bodies(Closures(inputs, CloseAll(inputs), index)) == ClosedNews(PendingFront(inputs))
  {
    if inputs != [] {
      assert CloseAll(inputs)[1..] == CloseAll(inputs[1..]);
      ClosuresAre(inputs[1..], index + 1);
      ClosuresAre(inputs[1..], index);
      if inputs[0].state.Accepted? {
        var more := Closures(inputs[1..], CloseAll(inputs[1..]), index + 1);
        assert Closures(inputs, CloseAll(inputs), index) == [Draft(index, InputUpdated(inputs[0].messageId, Closed))] + more;
        assert Bodies([Draft(index, InputUpdated(inputs[0].messageId, Closed))] + more)
               == [InputUpdated(inputs[0].messageId, Closed)] + Bodies(more);
        assert ClosedNews([inputs[0]] + PendingFront(inputs[1..]))
               == [InputUpdated(inputs[0].messageId, Closed)] + ClosedNews(PendingFront(inputs[1..]));
      }
    }
  }

  /** The pending inputs, taken from the front. */
  function PendingFront(inputs: seq<Input>): seq<Input> {
    if inputs == [] then []
    else (if inputs[0].state.Accepted? then [inputs[0]] else []) + PendingFront(inputs[1..])
  }

  lemma {:induction false} FrontAppend(inputs: seq<Input>, last: Input)
    ensures PendingFront(inputs + [last]) == PendingFront(inputs) + if last.state.Accepted? then [last] else []
  {
    if inputs == [] {
      assert inputs + [last] == [last] && [last][1..] == [];
    } else {
      var first := if inputs[0].state.Accepted? then [inputs[0]] else [];
      var end := if last.state.Accepted? then [last] else [];
      FrontAppend(inputs[1..], last);
      assert (inputs + [last])[1..] == inputs[1..] + [last];
      assert first + (PendingFront(inputs[1..]) + end) == first + PendingFront(inputs[1..]) + end;
    }
  }

  lemma {:induction false} FrontIsPending(inputs: seq<Input>)
    ensures PendingFront(inputs) == Pending(inputs)
  {
    if inputs != [] {
      var front, last := inputs[..|inputs| - 1], inputs[|inputs| - 1];
      FrontIsPending(front);
      FrontAppend(front, last);
      assert inputs == front + [last];
    }
  }

  /** The input that an acceptance or a delivery is about is found as the record says. */
  lemma {:induction false} FoundIs(inputs: seq<Input>, messageId: Id, state: InputState)
    requires Has(inputs, messageId)
    requires forall k :: 0 <= k < |inputs| && inputs[k].messageId == messageId ==> inputs[k].state == state
    ensures Find(inputs, messageId).Some? && Find(inputs, messageId).value.state == state
  {
    if inputs[0].messageId != messageId {
      var k :| 0 <= k < |inputs| && inputs[k].messageId == messageId;
      assert inputs[1..][k - 1].messageId == messageId;
      FoundIs(inputs[1..], messageId, state);
    }
  }

  lemma InputFound(s: State, e: Event)
    requires s.Run? && LedgerOk(s.inputs) && Reduce(s, e).Some? && (e.InputAccepted? || e.InputDelivered?)
    ensures var after := Reduce(s, e).value;
            && after.Run? && Find(after.inputs, e.messageId).Some?
            && Find(after.inputs, e.messageId).value.state == if e.InputAccepted? then Accepted else Delivered(e.turnId)
  {
    hide Reduce;
    InputNamed(s, e);
    ReduceInputs(s, e);
    var after := Reduce(s, e).value;
    if e.InputAccepted? {
      AcceptNew(s, e);
      FoundIs(after.inputs, e.messageId, Accepted);
    } else {
      DeliveredOne(s, e);
      FoundIs(after.inputs, e.messageId, Delivered(e.turnId));
    }
  }

  lemma AcceptNew(s: State, e: Event)
    requires s.Run? && e.InputAccepted? && Reduce(s, e).Some?
    ensures !Known(s.inputs, e.commandId, e.messageId)
  {
  }

  lemma DeliveredOne(s: State, e: Event)
    requires s.Run? && e.InputDelivered? && LedgerOk(s.inputs) && Reduce(s, e).Some?
    ensures forall k :: 0 <= k < |s.inputs| && s.inputs[k].messageId == e.messageId ==> s.inputs[k].state.Accepted?
  {
    var pending := Pending(s.inputs);
    OfModeAmong(pending, Steer);
    assert Has(pending, e.messageId);
    var k :| 0 <= k < |pending| && pending[k].messageId == e.messageId;
    ProjectedAmong(s.inputs);
    var at :| 0 <= at < |s.inputs| && s.inputs[at] == pending[k];
    PendingAccepted(s.inputs);
  }

  lemma {:induction false} PendingAccepted(inputs: seq<Input>)
    ensures forall k :: 0 <= k < |Pending(inputs)| ==> Pending(inputs)[k].state.Accepted?
  {
    if inputs != [] { PendingAccepted(inputs[..|inputs| - 1]); }
  }

  lemma EndPhases(s: State, e: Event)
    requires s.Run? && Reduce(s, e).Some?
    ensures var after := Reduce(s, e).value;
            && after.Run?
            && (e.RunCancelled? ==> after.phase == Terminal(Cancelled) && after.inputs == CloseAll(s.inputs))
            && (e.RunBlocked? ==> after.phase == Terminal(Blocked) && after.inputs == CloseAll(s.inputs))
            && (e.CommandProposed? ==> after.phase == AwaitingApproval)
            && (e.ApprovalResolved? ==> !after.phase.Terminal?)
            && (e.AttemptStarted? ==> after.attempts != [] && after.attempts[|after.attempts| - 1].attemptId == e.attemptId)
  {
    hide Pending, CloseAll;
  }

  /** A command that ends was counted as a tool call. */
  lemma CommandCounted(records: seq<Record>, e: Event)
    requires Replay(records).Some? && Replay(records).value.Run? && Reduce(Replay(records).value, e).Some?
    requires e.CommandCompleted?
    ensures Reduce(Replay(records).value, e).value.Run? && Reduce(Replay(records).value, e).value.tools > 0
  {
    ReplayCounted(records);
    CommandTools(Replay(records).value, e);
  }

  predicate ToolCounted(s: State) {
    s.Run? && ForCommand(s.phase) ==> s.tools > 0
  }

  lemma CommandTools(s: State, e: Event)
    requires s.Run? && e.CommandCompleted? && Reduce(s, e).Some?
    ensures ForCommand(s.phase) && Reduce(s, e).value.Run? && Reduce(s, e).value.tools == s.tools
  {
    hide CloseAll, JoinedBytes;
  }

  lemma ReduceCounted(s: State, e: Event)
    requires ToolCounted(s) && Reduce(s, e).Some?
    ensures ToolCounted(Reduce(s, e).value)
  {
    hide Pending, CloseAll, Proposals, DeclaredBytes, ToolsExceeded, StepsExceeded, JoinedBytes, DecodeChunk;
  }

  lemma {:induction false} ReplayCounted(records: seq<Record>)
    requires Replay(records).Some?
    ensures ToolCounted(Replay(records).value)
  {
    if records != [] {
      ReplayCounted(records[..|records| - 1]);
      ReduceCounted(Replay(records[..|records| - 1]).value, records[|records| - 1].event);
    }
  }

  lemma EndIs(after: State, index: nat)
    requires after.Run?
    ensures Bodies(TerminalDraft(after, index)) == EndNews(after)
  {
  }

  lemma BodiesSum(a: seq<Draft>, b: seq<Draft>)
    ensures Bodies(a + b) == Bodies(a) + Bodies(b)
  {
  }

  /** The drafts of a record say its news. */
  lemma DraftsTell(records: seq<Record>, e: Event)
    requires Replay(records).Some? && Reduce(Replay(records).value, e).Some?
    ensures var (s, after) := (Replay(records).value, Reduce(Replay(records).value, e).value);
            && after.Run? && (s.Run? ==> |s.inputs| <= |after.inputs|) && (s.Run? || e.RunStarted?)
            && Drafts(s, e, after).Some? && Bodies(Drafts(s, e, after).value) == News(s, e, after)
  {
    hide Reduce, Closures, Conversation, Find, LastTurn, AnswerNews, EndNews, ClosedNews, Heard, Spoke, Staged, LedgerOk,
      TerminalDraft;
    var s := Replay(records).value;
    var after := Reduce(s, e).value;
    ReplayHeard(records);
    ReplayedState(records);
    DraftsExist(s, e);
    if s.Idle? {
      StartTells(e);
    } else {
      EndPhases(s, e);
      EndIs(after, 1);
      EndIs(after, 2);
      if e.StepCompleted? {
        StepTells(records, e);
      } else if e.InputAccepted? || e.InputDelivered? {
        InputFound(s, e);
      } else if e.CommandCompleted? {
        CommandCounted(records, e);
        BodiesSum([Draft(0, ToolUpdated)], TerminalDraft(after, 1));
      } else if e.ReadCompleted? {
        BodiesSum([Draft(0, ToolUpdated)], TerminalDraft(after, 1));
      } else if e.RunCancelled? || e.RunBlocked? {
        EndTells(s, e);
      }
    }
  }

  lemma StartTells(e: Event)
    requires Reduce(Idle, e).Some?
    ensures e.RunStarted?
  {
  }

  lemma StepTells(records: seq<Record>, e: Event)
    requires Replay(records).Some? && Replay(records).value.Run? && e.StepCompleted? && Reduce(Replay(records).value, e).Some?
    ensures var (s, after) := (Replay(records).value, Reduce(Replay(records).value, e).value);
            && after.Run? && |s.inputs| <= |after.inputs| && Drafts(s, e, after).Some?
            && Bodies(Drafts(s, e, after).value) == News(s, e, after)
  {
    hide Reduce, Conversation, LastTurn, AnswerNews, EndNews, Heard, Spoke, Staged, LedgerOk, TerminalDraft;
    var s, o := Replay(records).value, e.observation;
    var after := Reduce(s, e).value;
    ReplayHeard(records);
    ReplayedState(records);
    DraftsExist(s, e);
    StepPhases(s, e);
    StepTurn(records, e);
    EndIs(after, 2);
    var first := [Draft(0, AttemptUpdated(o.attemptId))];
    var turn := LastTurn(after);
    var said := if turn.Answer? && turn.attemptId == o.attemptId then [Draft(1, ConversationUpdated(turn))] else [];
    BodiesSum(first + said, TerminalDraft(after, 2));
    BodiesSum(first, said);
  }

  lemma EndTells(s: State, e: Event)
    requires s.Run? && (e.RunCancelled? || e.RunBlocked?) && Reduce(s, e).Some?
    ensures var after := Reduce(s, e).value;
            && after.Run? && |s.inputs| <= |after.inputs| && Drafts(s, e, after).Some?
            && Bodies(Drafts(s, e, after).value) == News(s, e, after)
  {
    hide Reduce, Closures;
    EndPhases(s, e);
    var after := Reduce(s, e).value;
    assert after.inputs[..|s.inputs|] == after.inputs;
    ClosuresAre(s.inputs, 0);
    FrontIsPending(s.inputs);
    var closed := Closures(s.inputs, after.inputs, 0);
    BodiesSum(closed, TerminalDraft(after, |closed|));
  }

  // ----- whole journals -----

  /** Each record of a journal adds its news, in order, under its own id and the revision it led to, from the next cursor on. */
  lemma RecordTold(records: seq<Record>, r: Record)
    requires Replay(records + [r]).Some?
    ensures Replay(records).Some? && Project(records).Some? && Project(records + [r]).Some?
    ensures var (s, after) := (Replay(records).value, Replay(records + [r]).value);
            var (few, many) := (EventsOf(records), EventsOf(records + [r]));
            && after.Run? && (s.Run? || r.event.RunStarted?)
            && few <= many && |many| == |few| + |News(s, r.event, after)|
            && (forall k :: |few| <= k < |many| ==>
                  && many[k].body == News(s, r.event, after)[k - |few|] && many[k].cursor == k
                  && many[k].source == r.eventId && many[k].revision == after.revision)
  {
    hide Reduce, Drafts, News;
    assert (records + [r])[..|records|] == records;
    ProjectTotal(records);
    ProjectTotal(records + [r]);
    DraftsTell(records, r.event);
  }

  /** The news of a record ends the run's story exactly if the record ends the run. */
  lemma NewsEnd(s: State, e: Event)
    requires (s.Run? || e.RunStarted?) && Reduce(s, e).Some? && Reduce(s, e).value.Run?
    ensures var (after, news) := (Reduce(s, e).value, News(s, e, Reduce(s, e).value));
            && (s.Run? ==> !s.phase.Terminal?)
            && (if after.phase.Terminal?
                then news != [] && news[|news| - 1] == RunTerminal(after.phase.outcome)
                     && forall k :: 0 <= k < |news| - 1 ==> !news[k].RunTerminal?
                else forall k :: 0 <= k < |news| ==> !news[k].RunTerminal?)
  {
    hide Reduce;
    if s.Run? {
      EndPhases(s, e);
      NotEnded(s, e);
      if Reduce(s, e).value.phase.Terminal? { EndCloses(s, e); }
    } else {
      StartOpen(e);
    }
  }

  lemma StartOpen(e: Event)
    requires e.RunStarted?
    ensures Reduce(Idle, e).Some? && Reduce(Idle, e).value.Run? && !Reduce(Idle, e).value.phase.Terminal?
  {
  }

  /** The projected events contain the end of the run exactly if the run ended; then it is told once, last, and with the
      outcome the run has. */
  lemma {:induction false} TerminalTold(records: seq<Record>)
    requires Replay(records).Some?
    ensures var (s, events) := (Replay(records).value, EventsOf(records));
            if s.Run? && s.phase.Terminal?
            then events != [] && events[|events| - 1].body == RunTerminal(s.phase.outcome)
                 && forall k :: 0 <= k < |events| - 1 ==> !events[k].body.RunTerminal?
            else forall k :: 0 <= k < |events| ==> !events[k].body.RunTerminal?
  {
    if records != [] {
      hide Reduce, News, Project;
      var front, r := records[..|records| - 1], records[|records| - 1];
      assert front + [r] == records;
      TerminalTold(front);
      RecordTold(front, r);
      NewsEnd(Replay(front).value, r.event);
    }
  }
}
