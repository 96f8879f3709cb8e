/** The product projection: a fold from journal to product events, and the subscribers that re-run it
    (projection.ts, view-projection.ts, agent-client.ts). */
module Projection {
  import opened Results
  import opened Kernel
  import opened KernelFacts
  import opened RuntimeJournal
  import opened InputLedger
  import opened Reservations

  // ----- the conversation view -----

  datatype ViewTurn = Task | Message(messageId: Id) | Answer(attemptId: Id, complete: bool)

  /** The last attempt of a step. */
  function LastAttempt(attempts: seq<Attempt>, step: nat): Option<Attempt> {
    if attempts == [] then None
    else if attempts[|attempts| - 1].step == step then Some(attempts[|attempts| - 1])
    else LastAttempt(attempts[..|attempts| - 1], step)
  }

  /** Assistant items with text so far, as assistantIndex counts them. */
  function Spoken(talk: seq<Turn>): nat {
    if talk == [] then 0
    else Spoken(talk[..|talk| - 1]) + if talk[|talk| - 1] == Said(true) then 1 else 0
  }

  /** All assistant items so far. */
  function SaidCount(talk: seq<Turn>): nat {
    if talk == [] then 0
    else SaidCount(talk[..|talk| - 1]) + if talk[|talk| - 1].Said? then 1 else 0
  }

  /** The turns of the conversation items: an answer is attributed by counting only the answers with text. */
  function Turns(talk: seq<Turn>, attempts: seq<Attempt>): (r: seq<ViewTurn>)
    ensures r != [] && r[0] == Task
  {
    if talk == [] then [Task]
    else
      var front, last := talk[..|talk| - 1], talk[|talk| - 1];
      match last
      case Asked(m) => Turns(front, attempts) + [Message(m)]
      case Said(hasText) =>
        var author := LastAttempt(attempts, Spoken(front) + 1);
        if !hasText || author.None? then Turns(front, attempts) else Turns(front, attempts) + [Answer(author.value.attemptId, true)]
  }

  /** providerProjection's conversation, built item by item. */
  method ProjectTurns(talk: seq<Turn>, attempts: seq<Attempt>) returns (conversation: seq<ViewTurn>)
    requires forall k :: 0 <= k < |talk| && talk[k] == Said(true) ==> LastAttempt(attempts, Spoken(talk[..k]) + 1).Some?
    ensures conversation == Turns(talk, attempts)
  {
    conversation := [Task];
    var assistantIndex := 0;
    assert talk[..0] == [];
    for k := 0 to |talk|
      invariant conversation == Turns(talk[..k], attempts) && assistantIndex == Spoken(talk[..k])
    {
      assert talk[..k + 1][..k] == talk[..k];
      match talk[k] {
        case Asked(m) => conversation := conversation + [Message(m)];
        case Said(hasText) =>
          if hasText {
            var author := LastAttempt(attempts, assistantIndex + 1);
            if author.Some? {
              conversation := conversation + [Answer(author.value.attemptId, true)];
              assistantIndex := assistantIndex + 1;
            }
          }
      }
    }
    assert talk[..|talk|] == talk;
  }

  /** The conversation of a state's view. */
  function Conversation(s: State): seq<ViewTurn>
    requires s.Run?
  {
    var turns := Turns(s.talk, s.attempts);
    if s.attempts == [] then turns
    else
      var last := s.attempts[|s.attempts| - 1];
      if s.phase == Terminal(Answered) then turns + [Answer(last.attemptId, true)]
      else if s.phase == AwaitingRetry && last.observation.Some? && last.observation.value.Interrupted?
      then turns + [Answer(last.attemptId, false)]
      else turns
  }

  function LastTurn(s: State): ViewTurn
    requires s.Run?
  {
    Conversation(s)[|Conversation(s)| - 1]
  }

  // ----- product events -----

  datatype Product =
    | Snapshot | Progress | ToolUpdated | ApprovalPresented
    | AttemptUpdated(attemptId: Id) | ConversationUpdated(turn: ViewTurn)
    | InputUpdated(messageId: Id, state: InputState) | RunTerminal(outcome: Outcome)

  /** The event id is `<source>:product:<index>`. */
  datatype ProductEvent = ProductEvent(cursor: nat, source: Id, index: nat, revision: nat, body: Product)

  datatype Draft = Draft(index: nat, body: Product)

  function TerminalDraft(s: State, index: nat): seq<Draft>
    requires s.Run?
  {
    if s.phase.Terminal? then [Draft(index, RunTerminal(s.phase.outcome))] else []
  }

  function Find(inputs: seq<Input>, messageId: Id): Option<Input> {
    if inputs == [] then None
    else if inputs[0].messageId == messageId then Some(inputs[0]) else Find(inputs[1..], messageId)
  }

  /** An update for each input that the transition closed. */
  function Closures(before: seq<Input>, after: seq<Input>, index: nat): seq<Draft>
    requires |before| == |after|
  {
    if before == [] then []
    else if before[0].state.Accepted? && after[0].state.Closed? then
      [Draft(index, InputUpdated(after[0].messageId, Closed))] + Closures(before[1..], after[1..], index + 1)
    else Closures(before[1..], after[1..], index)
  }

  /** The events of one record; None where the source throws a ProjectionError. */
  function Drafts(before: State, e: Event, after: State): Option<seq<Draft>>
    requires after.Run? && (before.Run? ==> |before.inputs| <= |after.inputs|)
  {
    match e
    case RunStarted(_) => Some([Draft(0, Snapshot)])
    case CommandProposed(_, _, _) =>
      Some([Draft(0, Progress)] + if after.phase == AwaitingApproval then [Draft(1, ApprovalPresented)] else [])
    case ReadCompleted(_, _) =>
      if after.tools == 0 then None else Some([Draft(0, ToolUpdated)] + TerminalDraft(after, 1))
    case AttemptStarted(_, _) =>
      if after.attempts == [] then None else Some([Draft(0, AttemptUpdated(after.attempts[|after.attempts| - 1].attemptId))])
    case StepCompleted(_, o) =>
      if after.attempts == [] then None
      else
        var turn := LastTurn(after);
        Some([Draft(0, AttemptUpdated(after.attempts[|after.attempts| - 1].attemptId))]
             + (if turn.Answer? && turn.attemptId == o.attemptId then [Draft(1, ConversationUpdated(turn))] else [])
             + TerminalDraft(after, 2))
    case InputAccepted(_, _, m, _, _, _) =>
      var input := Find(after.inputs, m);
      if input.None? then None else Some([Draft(0, InputUpdated(m, input.value.state))])
    case InputDelivered(m, _) =>
      var input := Find(after.inputs, m);
      if input.None? || Message(m) !in Conversation(after) then None
      else Some([Draft(0, InputUpdated(m, input.value.state)), Draft(1, ConversationUpdated(Message(m)))])
    case ApprovalResolved(_, _) =>
      Some(if after.phase.Terminal? then TerminalDraft(after, 0) else [Draft(0, Progress)])
    case CommandCompleted(_, _) =>
      Some((if after.tools == 0 then [] else [Draft(0, ToolUpdated)]) + TerminalDraft(after, 1))
    case RunCancelled => EndDrafts(before, after)
    case RunBlocked => EndDrafts(before, after)
    case _ => Some([Draft(0, Progress)])
  }

  function EndDrafts(before: State, after: State): Option<seq<Draft>>
    requires after.Run? && (before.Run? ==> |before.inputs| <= |after.inputs|)
  {
    var closed := if before.Idle? then [] else Closures(before.inputs, after.inputs[..|before.inputs|], 0);
    if !after.phase.Terminal? then None else Some(closed + TerminalDraft(after, |closed|))
  }

  function Numbered(drafts: seq<Draft>, record: Record, revision: nat, cursor: nat): (r: seq<ProductEvent>)
    ensures |r| == |drafts|
    ensures forall k :: 0 <= k < |r| ==>
              r[k] == ProductEvent(cursor + k, record.eventId, drafts[k].index, revision, drafts[k].body)
  {
    seq(|drafts|, k requires 0 <= k < |drafts| =>
          ProductEvent(cursor + k, record.eventId, drafts[k].index, revision, drafts[k].body))
  }

  datatype Projected = Projected(state: State, events: seq<ProductEvent>)

  /** projectJournal; None where it throws. */
  function Project(records: seq<Record>): Option<Projected> {
    if records == [] then Some(Projected(Idle, []))
    else
      var before := Project(records[..|records| - 1]);
      if before.None? then None else ProjectNext(before.value, records[|records| - 1])
  }

  function ProjectNext(p: Projected, r: Record): Option<Projected> {
    var after := Reduce(p.state, r.event);
    if after.None? || after.value.Idle? || (p.state.Run? && |p.state.inputs| > |after.value.inputs|) then None
    else
      var drafts := Drafts(p.state, r.event, after.value);
      if drafts.None? then None
      else Some(Projected(after.value, p.events + Numbered(drafts.value, r, after.value.revision, |p.events|)))
  }

  /** The source's loop, with its running state and cursor. */
  method ProjectJournal(records: seq<Record>) returns (projected: Option<Projected>)
    ensures projected == Project(records)
  {
    hide Reduce, Drafts;
    var state, events, cursor := Idle, [], 0;
    assert records[..0] == [];
    for k := 0 to |records|
      invariant Project(records[..k]) == Some(Projected(state, events)) && cursor == |events|
    {
      assert records[..k + 1][..k] == records[..k];
      var next := ProjectNext(Projected(state, events), records[k]);
      if next.None? {
        ProjectStops(records, k + 1);
        return None;
      }
      state, events := next.value.state, next.value.events;
      cursor := |events|;
    }
    assert records[..|records|] == records;
    projected := Some(Projected(state, events));
  }

  lemma {:induction false} ProjectStops(records: seq<Record>, k: nat)
    requires k <= |records| && Project(records[..k]).None?
    ensures Project(records).None?
    decreases |records|
  {
    if k < |records| {
      assert records[..|records| - 1][..k] == records[..k];
      ProjectStops(records[..|records| - 1], k);
    } else {
      assert records[..k] == records;
    }
  }

  // ----- the projection of a replayable journal never fails -----

  /** The conversation keeps pace with the steps, and every past step has an attempt. */
  predicate Spoke(s: State) {
    s.Run? && !s.phase.Terminal? ==>
      SaidCount(s.talk) + (if BeforeAnswer(s.phase) then 1 else 0) == s.step
  }

  predicate BeforeAnswer(p: Phase) {
    p == Executing(ModelReady) || p == Executing(AwaitingAttempt) || p == Executing(ModelInFlight) || p == AwaitingRetry
  }

  lemma SaidAppend(talk: seq<Turn>, t: Turn)
    ensures SaidCount(talk + [t]) == SaidCount(talk) + if t.Said? then 1 else 0
    ensures Spoken(talk + [t]) == Spoken(talk) + if t == Said(true) then 1 else 0
  {
    assert (talk + [t])[..|talk|] == talk;
  }

  /** What a transition adds to the conversation. */
  lemma ReduceTalk(s: State, e: Event)
    requires s.Run? && Reduce(s, e).Some?
    ensures Reduce(s, e).value.Run?
    ensures var after := Reduce(s, e).value;
            match e
            case InputDelivered(m, _) => after.talk == s.talk + [Asked(m)]
            case StepCompleted(_, o) =>
              if o.Finished? && !after.phase.Terminal? then after.talk == s.talk + [Said(o.hasText)] else after.talk == s.talk
            case _ => after.talk == s.talk
  {
    hide Pending, CloseAll, Proposals, DeclaredBytes, ToolsExceeded, StepsExceeded, JoinedBytes, DecodeChunk;
  }

  lemma ReduceSteps(s: State, e: Event)
    requires s.Run? && Reduce(s, e).Some? && !Reduce(s, e).value.phase.Terminal?
    ensures var after := Reduce(s, e).value;
            && after.step + (if BeforeAnswer(s.phase) then 1 else 0)
               == s.step + (if BeforeAnswer(after.phase) then 1 else 0)
                  + (if e.StepCompleted? && e.observation.Finished? then 1 else 0)
  {
    hide Pending, CloseAll, Proposals, DeclaredBytes, ToolsExceeded, StepsExceeded, JoinedBytes, DecodeChunk;
  }

  /** Every step that was answered has an attempt; a tool in flight was counted. */
  predicate Heard(s: State) {
    s.Run? ==>
      && (forall p :: 1 <= p <= SaidCount(s.talk) ==> LastAttempt(s.attempts, p).Some?)
      && (s.phase == Executing(ToolReady) || s.phase == Executing(ToolInFlight) ==> s.tools > 0)
  }

  lemma ReduceTools(s: State, e: Event)
    requires s.Run? && Reduce(s, e).Some? && Heard(s)
    ensures Reduce(s, e).value.Run? && Reduce(s, e).value.tools >= s.tools
    ensures var after := Reduce(s, e).value;
            after.phase == Executing(ToolReady) || after.phase == Executing(ToolInFlight) ==> after.tools > 0
  {
    hide Pending, CloseAll, Proposals, DeclaredBytes, ToolsExceeded, StepsExceeded, JoinedBytes, DecodeChunk, SaidCount,
      LastAttempt;
  }

  /** Adding an attempt or observing the last one keeps an attempt for every step that had one. */
  lemma {:induction false} LastAttemptGrows(before: seq<Attempt>, after: seq<Attempt>, step: nat)
    requires |before| <= |after| && forall k :: 0 <= k < |before| ==> after[k].step == before[k].step
    requires LastAttempt(before, step).Some?
    ensures LastAttempt(after, step).Some?
    decreases |after|
  {
    if |after| > |before| {
      LastAttemptGrows(before, after[..|after| - 1], step);
    } else if before[|before| - 1].step != step {
      LastAttemptGrows(before[..|before| - 1], after[..|after| - 1], step);
    }
  }

  lemma ReduceHeard(s: State, e: Event)
    requires Heard(s) && Spoke(s) && Reduce(s, e).Some?
    ensures Heard(Reduce(s, e).value) && Spoke(Reduce(s, e).value)
  {
    hide Reduce;
    if s.Idle? {
      FirstState(e);
    } else {
      var after := Reduce(s, e).value;
      ReduceTalk(s, e);
      ReduceTools(s, e);
      ReduceAttempts(s, e);
      SaidAppend(s.talk, Said(e.StepCompleted? && e.observation.Finished? && e.observation.hasText));
      if e.InputDelivered? { SaidAppend(s.talk, Asked(e.messageId)); }
      NotEnded(s, e);
      if !after.phase.Terminal? { ReduceSteps(s, e); }
      forall p | 1 <= p <= SaidCount(after.talk) ensures LastAttempt(after.attempts, p).Some? {
        if p <= SaidCount(s.talk) {
          LastAttemptGrows(s.attempts, after.attempts, p);
        } else {
          CurrentStep(s, e);
        }
      }
    }
  }

  lemma FirstState(e: Event)
    requires Reduce(Idle, e).Some?
    ensures Heard(Reduce(Idle, e).value) && Spoke(Reduce(Idle, e).value)
  {
  }

  lemma NotEnded(s: State, e: Event)
    requires s.Run? && Reduce(s, e).Some?
    ensures !s.phase.Terminal?
  {
  }

  /** A completed step observes the last attempt, which is of that step. */
  lemma CurrentStep(s: State, e: Event)
    requires s.Run? && e.StepCompleted? && Reduce(s, e).Some?
    ensures Reduce(s, e).value.Run? && BeforeAnswer(s.phase)
    ensures var after := Reduce(s, e).value;
            && LastAttempt(after.attempts, s.step).Some?
            && LastAttempt(after.attempts, s.step).value.attemptId == e.observation.attemptId
            && after.attempts != [] && after.attempts[|after.attempts| - 1].attemptId == e.observation.attemptId
  {
    hide Pending, CloseAll, Proposals, DeclaredBytes, ToolsExceeded, StepsExceeded;
  }

  lemma {:induction false} ReplayHeard(records: seq<Record>)
    requires Replay(records).Some?
    ensures Heard(Replay(records).value) && Spoke(Replay(records).value)
  {
    if records != [] {
      ReplayHeard(records[..|records| - 1]);
      ReduceHeard(Replay(records[..|records| - 1]).value, records[|records| - 1].event);
    }
  }

  lemma {:induction false} Finds(inputs: seq<Input>, messageId: Id)
    requires Has(inputs, messageId)
    ensures Find(inputs, messageId).Some? && Find(inputs, messageId).value.messageId == messageId
  {
    if inputs[0].messageId != messageId {
      var k :| 0 <= k < |inputs| && inputs[k].messageId == messageId;
      assert inputs[1..][k - 1].messageId == messageId;
      Finds(inputs[1..], messageId);
    }
  }

  lemma InputNamed(s: State, e: Event)
    requires s.Run? && Reduce(s, e).Some? && (e.InputAccepted? || e.InputDelivered?)
    ensures Reduce(s, e).value.Run? && Has(Reduce(s, e).value.inputs, e.messageId)
    ensures e.InputDelivered? ==> Message(e.messageId) in Conversation(Reduce(s, e).value)
  {
    var after := Reduce(s, e).value;
    ReduceInputs(s, e);
    if e.InputAccepted? {
      assert after.inputs[|s.inputs|].messageId == e.messageId;
    } else {
      var pending := Pending(s.inputs);
      OfModeAmong(pending, Steer);
      assert Has(pending, e.messageId);
      var k :| 0 <= k < |pending| && pending[k].messageId == e.messageId;
      ProjectedAmong(s.inputs);
      var at :| 0 <= at < |s.inputs| && s.inputs[at] == pending[k];
      assert after.inputs[at].messageId == e.messageId;
      assert after.talk[..|s.talk|] == s.talk;
      var turns := Turns(after.talk, after.attempts);
      assert turns[|turns| - 1] == Message(e.messageId);
    }
  }

  lemma DraftsExist(s: State, e: Event)
    requires Heard(s) && Staged(s) && Reduce(s, e).Some?
    ensures Reduce(s, e).value.Run? && (s.Run? ==> |s.inputs| <= |Reduce(s, e).value.inputs|)
    ensures Drafts(s, e, Reduce(s, e).value).Some?
  {
    var after := Reduce(s, e).value;
    if s.Run? {
      ReduceLedger(s, e);
      ReduceAttempts(s, e);
      if e.InputAccepted? || e.InputDelivered? {
        InputNamed(s, e);
        Finds(after.inputs, e.messageId);
      } else if e.ReadCompleted? {
        ReduceTools(s, e);
      }
    }
  }

  /** Whatever replays also projects, to the same state. */
  lemma {:induction false} ProjectTotal(records: seq<Record>)
    requires Replay(records).Some?
    ensures Project(records).Some? && Project(records).value.state == Replay(records).value
  {
    if records != [] {
      var front, e := records[..|records| - 1], records[|records| - 1].event;
      ProjectTotal(front);
      ReplayHeard(front);
      ReplayedState(front);
      DraftsExist(Replay(front).value, e);
    }
  }

  // ----- prefixes, cursors, identities -----

  function EventsOf(records: seq<Record>): seq<ProductEvent> {
    if Project(records).Some? then Project(records).value.events else []
  }

  /** Projecting a prefix of the journal gives a prefix of the events. */
  lemma {:induction false} ProjectPrefix(records: seq<Record>, k: nat)
    requires k <= |records| && Project(records).Some?
    ensures Project(records[..k]).Some? && EventsOf(records[..k]) <= EventsOf(records)
  {
    if k < |records| {
      hide ProjectNext;
      var front := records[..|records| - 1];
      ProjectPrefix(front, k);
      assert front[..k] == records[..k];
      NextExtends(Project(front).value, records[|records| - 1]);
    } else {
      assert records[..k] == records;
    }
  }

  lemma NextExtends(p: Projected, r: Record)
    requires ProjectNext(p, r).Some?
    ensures p.events <= ProjectNext(p, r).value.events
  {
    hide Reduce, Drafts;
  }

  /** The drafts of one record carry different indices. */
  predicate Ascending(drafts: seq<Draft>) {
    forall i, j :: 0 <= i < j < |drafts| ==> drafts[i].index < drafts[j].index
  }

  /** Updates of inputs, numbered from `index`. */
  predicate Updates(drafts: seq<Draft>, index: nat) {
    forall k :: 0 <= k < |drafts| ==> drafts[k].index == index + k && drafts[k].body.InputUpdated?
  }

  lemma {:induction false} ClosuresAscend(before: seq<Input>, after: seq<Input>, index: nat)
    requires |before| == |after|
    ensures Updates(Closures(before, after, index), index)
  {
    if before != [] {
      ClosuresAscend(before[1..], after[1..], index + 1);
      ClosuresAscend(before[1..], after[1..], index);
    }
  }

  lemma DraftsAscend(before: State, e: Event, after: State)
    requires after.Run? && (before.Run? ==> |before.inputs| <= |after.inputs|) && Drafts(before, e, after).Some?
    ensures Ascending(Drafts(before, e, after).value)
  {
    hide Conversation, Find;
    if (e.RunCancelled? || e.RunBlocked?) && before.Run? {
      ClosuresAscend(before.inputs, after.inputs[..|before.inputs|], 0);
    }
  }

  /** Cursors count from 0, and no two events share an id if no two records do. */
  predicate WellNumbered(events: seq<ProductEvent>) {
    && (forall k :: 0 <= k < |events| ==> events[k].cursor == k)
    && (forall i, j :: 0 <= i < j < |events| ==> events[i].source != events[j].source || events[i].index < events[j].index)
  }

  predicate SourcesIn(events: seq<ProductEvent>, records: seq<Record>) {
    forall k :: 0 <= k < |events| ==> Names(records, events[k].source)
  }

  predicate Names(records: seq<Record>, id: Id) {
    exists k :: 0 <= k < |records| && records[k].eventId == id
  }

  lemma NumberNext(p: Projected, r: Record, records: seq<Record>)
    requires WellNumbered(p.events) && SourcesIn(p.events, records) && !Names(records, r.eventId)
    requires ProjectNext(p, r).Some?
    ensures WellNumbered(ProjectNext(p, r).value.events) && SourcesIn(ProjectNext(p, r).value.events, records + [r])
  {
    hide Reduce, Drafts;
    var after := Reduce(p.state, r.event).value;
    var drafts := Drafts(p.state, r.event, after).value;
    DraftsAscend(p.state, r.event, after);
    var made := Numbered(drafts, r, after.revision, |p.events|);
    var events := p.events + made;
    forall i, j | 0 <= i < j < |events| ensures events[i].source != events[j].source || events[i].index < events[j].index {
      if i < |p.events| <= j { assert Names(records, events[i].source); }
    }
    assert (records + [r])[|records|].eventId == r.eventId;
    forall k | 0 <= k < |events| ensures Names(records + [r], events[k].source) {
      if k < |p.events| {
        var at :| 0 <= at < |records| && records[at].eventId == events[k].source;
        assert (records + [r])[at].eventId == events[k].source;
      }
    }
  }

  lemma {:induction false} ProjectNumbers(records: seq<Record>)
    requires Project(records).Some?
    requires forall i, j :: 0 <= i < j < |records| ==> records[i].eventId != records[j].eventId
    ensures WellNumbered(EventsOf(records)) && SourcesIn(EventsOf(records), records)
  {
    hide ProjectNext, WellNumbered, SourcesIn;
    if records == [] {
      NothingNumbered();
    } else {
      var front, last := records[..|records| - 1], records[|records| - 1];
      ProjectNumbers(front);
      NumberNext(Project(front).value, last, front);
      assert front + [last] == records;
    }
  }

  lemma NothingNumbered()
    ensures WellNumbered([]) && SourcesIn([], [])
  {
  }

  // ----- subscribers -----

  function Later(a: int, b: int): int {
    if a < b then b else a
  }

  /** The events whose position is beyond the cursor. */
  function Beyond(events: seq<ProductEvent>, cursor: int): seq<ProductEvent> {
    if cursor < 0 then events else if cursor + 1 >= |events| then [] else events[cursor + 1..]
  }

  lemma BeyondTwice(few: seq<ProductEvent>, many: seq<ProductEvent>, after: int)
    requires few <= many && after >= -1
    ensures Beyond(many, after) == Beyond(few, after) + Beyond(many, Later(after, |few| - 1))
  {
    assert many[..|few|] == few;
  }

  lemma BeyondNext(events: seq<ProductEvent>, k: nat, cursor: int)
    requires k < |events| && cursor >= -1
    ensures Beyond(events[..k + 1], cursor) == Beyond(events[..k], cursor) + if k > cursor then [events[k]] else []
  {
    assert events[..k + 1] == events[..k] + [events[k]];
  }

  /** A subscriber re-projects the journal whenever it wakes, and keeps only its cursor. */
  class Subscription {
    var cursor: int
    var delivered: seq<ProductEvent>
    const after: int

    constructor (afterCursor: Option<nat>)
      ensures after == (if afterCursor.None? then -1 else afterCursor.value) && CaughtUp([])
    {
      after := if afterCursor.None? then -1 else afterCursor.value;
      cursor := if afterCursor.None? then -1 else afterCursor.value;
      delivered := [];
    }

    /** Exactly the events beyond the starting cursor were delivered, each once and in order. */
    ghost predicate CaughtUp(records: seq<Record>)
      reads this
    {
      && Project(records).Some? && after >= -1
      && delivered == Beyond(EventsOf(records), after) && cursor == Later(after, |EventsOf(records)| - 1)
    }

    /** One turn of the loop in `subscribe`, over the journal as it is now. */
    method Wake(ghost before: seq<Record>, records: seq<Record>)
      requires CaughtUp(before) && before <= records && Project(records).Some? && WellNumbered(EventsOf(records))
      modifies this`cursor, this`delivered
      ensures CaughtUp(records) && old(delivered) <= delivered
    {
      hide Project, ProjectNext;
      var projected := ProjectJournal(records);
      var events := projected.value.events;
      assert records[..|before|] == before;
      ProjectPrefix(records, |before|);
      BeyondTwice(EventsOf(before), events, after);
      Deliver(events);
    }

    method Deliver(events: seq<ProductEvent>)
      requires WellNumbered(events) && cursor >= -1
      modifies this`cursor, this`delivered
      ensures delivered == old(delivered) + Beyond(events, old(cursor)) && cursor == Later(old(cursor), |events| - 1)
    {
      for k := 0 to |events|
        invariant delivered == old(delivered) + Beyond(events[..k], old(cursor))
        invariant cursor == Later(old(cursor), k - 1)
      {
        hide Beyond;
        BeyondNext(events, k, old(cursor));
        if events[k].cursor > cursor {
          cursor := events[k].cursor;
          delivered := delivered + [events[k]];
        }
      }
      assert events[..|events|] == events;
    }
  }

  // ----- what the events leave out -----

  /** How many answers' turns are attributed to an earlier step's attempt. */
  lemma {:induction false} SpokenAtMost(talk: seq<Turn>)
    ensures Spoken(talk) <= SaidCount(talk)
    ensures Spoken(talk) == SaidCount(talk) <==> Said(false) !in talk
  {
    if talk != [] {
      SpokenAtMost(talk[..|talk| - 1]);
      assert talk == talk[..|talk| - 1] + [talk[|talk| - 1]];
    }
  }

  lemma {:induction false} LastAttemptOf(attempts: seq<Attempt>, step: nat)
    requires LastAttempt(attempts, step).Some?
    ensures LastAttempt(attempts, step).value.step == step
    ensures exists k :: 0 <= k < |attempts| && attempts[k] == LastAttempt(attempts, step).value
  {
    if attempts[|attempts| - 1].step != step {
      var front := attempts[..|attempts| - 1];
      LastAttemptOf(front, step);
      var k :| 0 <= k < |front| && front[k] == LastAttempt(front, step).value;
      assert attempts[k] == front[k];
    }
  }

  /** An answer that continues the run is attributed to the attempt that gave it, and announced as a conversation
      update, exactly when every earlier answer had text; counting skips the ones that had none. */
  lemma AnswerAttributedIff(records: seq<Record>, e: Event)
    requires Replay(records).Some? && Replay(records).value.Run?
    requires var s := Replay(records).value;
             e.StepCompleted? && e.observation.Finished? && e.observation.hasText
             && Reduce(s, e).Some? && Reduce(s, e).value.Run? && !Reduce(s, e).value.phase.Terminal?
    ensures var s, after := Replay(records).value, Reduce(Replay(records).value, e).value;
            && LastTurn(after).Answer?
            && (LastTurn(after).attemptId == e.observation.attemptId <==> Said(false) !in s.talk)
            && |s.inputs| <= |after.inputs| && Drafts(s, e, after).Some?
            && (Draft(1, ConversationUpdated(LastTurn(after))) in Drafts(s, e, after).value <==> Said(false) !in s.talk)
  {
    var s := Replay(records).value;
    var after := Reduce(s, e).value;
    ReplayHeard(records);
    ReplayedState(records);
    DraftsExist(s, e);
    ReduceTalk(s, e);
    ReduceHeard(s, e);
    ReduceAttempts(s, e);
    CurrentStep(s, e);
    SaidAppend(s.talk, Said(true));
    SpokenAtMost(s.talk);
    AnswerTurn(s, e, after);
  }

  lemma AnswerTurn(s: State, e: Event, after: State)
    requires s.Run? && after.Run? && e.StepCompleted? && after.talk == s.talk + [Said(true)]
    requires Heard(after) && Spoke(s) && BeforeAnswer(s.phase) && !s.phase.Terminal? && AttemptIdsDistinct(after.attempts)
    requires after.phase != Terminal(Answered) && after.phase != AwaitingRetry
    requires LastAttempt(after.attempts, s.step).Some?
    requires LastAttempt(after.attempts, s.step).value.attemptId == e.observation.attemptId
    ensures LastTurn(after).Answer?
    ensures LastTurn(after).attemptId == e.observation.attemptId <==> Spoken(s.talk) == SaidCount(s.talk)
  {
    assert after.talk[..|s.talk|] == s.talk;
    SaidAppend(s.talk, Said(true));
    SpokenAtMost(s.talk);
    var p := Spoken(s.talk) + 1;
    LastAttemptOf(after.attempts, p);
    LastAttemptOf(after.attempts, s.step);
    assert LastTurn(after) == Answer(LastAttempt(after.attempts, p).value.attemptId, true);
  }

  predicate Announced(drafts: seq<Draft>, messageId: Id) {
    exists k :: 0 <= k < |drafts| && drafts[k].body == InputUpdated(messageId, Closed)
  }

  lemma AnnouncedLater(first: seq<Draft>, more: seq<Draft>, messageId: Id)
    requires Announced(more, messageId)
    ensures Announced(first + more, messageId)
  {
    var k :| 0 <= k < |more| && more[k].body == InputUpdated(messageId, Closed);
    assert (first + more)[|first| + k] == more[k];
  }

  lemma AnnouncedSooner(first: seq<Draft>, more: seq<Draft>, messageId: Id)
    requires Announced(first, messageId)
    ensures Announced(first + more, messageId)
  {
    var k :| 0 <= k < |first| && first[k].body == InputUpdated(messageId, Closed);
    assert (first + more)[k] == first[k];
  }

  lemma {:induction false} ClosuresAnnounce(inputs: seq<Input>, index: nat, k: nat)
    requires k < |inputs| && inputs[k].state.Accepted?
    ensures Announced(Closures(inputs, CloseAll(inputs), index), inputs[k].messageId)
  {
    var after := CloseAll(inputs);
    assert after[1..] == CloseAll(inputs[1..]);
    if k == 0 {
      assert Closures(inputs, after, index)[0].body == InputUpdated(inputs[0].messageId, Closed);
    } else if inputs[0].state.Accepted? {
      ClosuresAnnounce(inputs[1..], index + 1, k - 1);
      AnnouncedLater([Draft(index, InputUpdated(inputs[0].messageId, Closed))],
                     Closures(inputs[1..], after[1..], index + 1), inputs[k].messageId);
    } else {
      ClosuresAnnounce(inputs[1..], index, k - 1);
    }
  }

  predicate AllAnnounced(inputs: seq<Input>, drafts: seq<Draft>) {
    forall k :: 0 <= k < |inputs| && inputs[k].state.Accepted? ==> Announced(drafts, inputs[k].messageId)
  }

  /** Ending a run closes its pending inputs; subscribers are told so exactly when the run was cancelled or blocked
      from outside, or nothing was pending. */
  lemma ClosuresAnnouncedIff(s: State, e: Event)
    requires s.Run? && Heard(s) && Staged(s) && Reduce(s, e).Some? && Reduce(s, e).value.Run?
    requires Reduce(s, e).value.phase.Terminal?
    ensures var after := Reduce(s, e).value;
            && after.inputs == CloseAll(s.inputs) && Drafts(s, e, after).Some?
            && (AllAnnounced(s.inputs, Drafts(s, e, after).value) <==> e.RunCancelled? || e.RunBlocked? || Pending(s.inputs) == [])
  {
    var after := Reduce(s, e).value;
    DraftsExist(s, e);
    EndCloses(s, e);
    var drafts := Drafts(s, e, after).value;
    if e.RunCancelled? || e.RunBlocked? {
      assert after.inputs[..|s.inputs|] == after.inputs;
      var closed := Closures(s.inputs, after.inputs, 0);
      forall k | 0 <= k < |s.inputs| && s.inputs[k].state.Accepted? ensures Announced(drafts, s.inputs[k].messageId) {
        ClosuresAnnounce(s.inputs, 0, k);
        AnnouncedSooner(closed, TerminalDraft(after, |closed|), s.inputs[k].messageId);
      }
    } else if Pending(s.inputs) != [] {
      ProjectedAmong(s.inputs);
      var k :| 0 <= k < |s.inputs| && s.inputs[k] == Pending(s.inputs)[0];
      assert !Announced(drafts, s.inputs[k].messageId);
    } else {
      NothingPending(s.inputs);
    }
  }

  lemma {:induction false} NothingPending(inputs: seq<Input>)
    requires Pending(inputs) == []
    ensures forall k :: 0 <= k < |inputs| ==> !inputs[k].state.Accepted?
  {
    if inputs != [] { NothingPending(inputs[..|inputs| - 1]); }
  }

  /** Only an outcome of what was in flight, or an end from outside, ends a run. */
  lemma EndCloses(s: State, e: Event)
    requires s.Run? && Reduce(s, e).Some? && Reduce(s, e).value.Run? && Reduce(s, e).value.phase.Terminal?
    ensures Reduce(s, e).value.inputs == CloseAll(s.inputs)
    ensures e.StepCompleted? || e.ReadCompleted? || e.CommandCompleted? || e.RunCancelled? || e.RunBlocked?
  {
  }
}
