/** The active-input ledger: the client's admission check, the kernel's own, the projected view and its schema,
    and the model steps the inputs reserve (agent-client.ts, view-projection.ts, protocol.ts). */
module InputLedger {
  import opened Results
  import opened Kernel
  import opened KernelFacts
  import opened RuntimeJournal

  // ----- admission -----

  datatype Refusal = Unavailable | NoReservation | CapacityReached | ModeFull
  datatype Admission = Duplicate | Refused(why: Refusal) | Commit(event: Event)

  /** submitActiveInput up to its commit. */
  function Admit(s: State, bytes: nat, commandId: Id, messageId: Id, mode: Mode): Admission {
    if s.Run? && exists k :: 0 <= k < |s.inputs| && s.inputs[k].commandId == commandId then Duplicate
    else if s.Idle? || s.phase.Terminal? then Refused(Unavailable)
    else if s.budget.None? then Refused(NoReservation)
    else if |s.inputs| >= INPUT_LIMIT || TotalBytes(s.inputs) + bytes > INPUT_BYTES then Refused(CapacityReached)
    else if (mode.Steer? && OfMode(Pending(s.inputs), Steer) != [])
            || (mode.Queue? && |OfMode(Pending(s.inputs), Queue)| >= QUEUE_LIMIT) then Refused(ModeFull)
    else
      var budget := s.budget.value;
      if budget.grant.modelSteps as int - budget.usage.modelSteps <= |Pending(s.inputs)| then Refused(NoReservation)
      else Commit(InputAccepted(bytes, commandId, messageId, mode, budget.grant.modelSteps - |Pending(s.inputs)|, |s.inputs|))
  }

  predicate Fresh(s: State, messageId: Id) {
    s.Run? ==> forall k :: 0 <= k < |s.inputs| ==> s.inputs[k].messageId != messageId
  }

  /** On one and the same state the client's check and the kernel's agree: what the client builds is legal, and
      where it refuses no event for that input would be. */
  lemma AdmissionAgrees(s: State, bytes: nat, commandId: Id, messageId: Id, mode: Mode, step: int, order: nat)
    requires Fresh(s, messageId)
    ensures Reduce(s, InputAccepted(bytes, commandId, messageId, mode, step, order)).Some?
            <==> Admit(s, bytes, commandId, messageId, mode) == Commit(InputAccepted(bytes, commandId, messageId, mode, step, order))
  {
  }

  // ----- the view -----

  datatype View = View(acceptedBytes: nat, acceptedCount: nat, closed: seq<Input>, pending: seq<Input>,
                       remainingBytes: int, pendingReservations: nat, remainingModelSteps: nat,
                       queueReason: Option<Refusal>, steerReason: Option<Refusal>)

  function ClosedOf(inputs: seq<Input>): seq<Input> {
    if inputs == [] then []
    else
      var last := inputs[|inputs| - 1];
      ClosedOf(inputs[..|inputs| - 1]) + if last.state.Closed? then [last] else []
  }

  function SubmissionReason(s: State, mode: Mode): Option<Refusal>
    requires s.Run?
  {
    if s.phase.Terminal? then Some(Unavailable)
    else if |s.inputs| >= INPUT_LIMIT || TotalBytes(s.inputs) >= INPUT_BYTES then Some(CapacityReached)
    else if (if mode.Steer? then OfMode(Pending(s.inputs), Steer) != [] else |OfMode(Pending(s.inputs), Queue)| >= QUEUE_LIMIT)
    then Some(ModeFull)
    else if s.budget.None?
            || s.budget.value.grant.modelSteps as int - s.budget.value.usage.modelSteps <= |Pending(s.inputs)|
    then Some(NoReservation)
    else None
  }

  function ViewOf(s: State): View
    requires s.Run?
  {
    var pending := Pending(s.inputs);
    var steps := if s.budget.None? then 0 - |pending|
                 else s.budget.value.grant.modelSteps as int - s.budget.value.usage.modelSteps - |pending|;
    View(TotalBytes(s.inputs), |s.inputs|, ClosedOf(s.inputs), pending, INPUT_BYTES - TotalBytes(s.inputs), |pending|,
         if steps < 0 then 0 else steps, SubmissionReason(s, Queue), SubmissionReason(s, Steer))
  }

  /** One input as the schema wants it. */
  predicate InputInRange(i: Input) {
    1 <= i.bytes <= 4_096 && 0 <= i.order <= 7 && 1 <= i.step <= 12
  }

  /** The object type's ranges, then its refinement. */
  predicate SchemaOk(v: View) {
    var projected := v.pending + v.closed;
    && v.acceptedBytes <= INPUT_BYTES && v.acceptedCount <= 8 && |v.closed| <= 8 && |v.pending| <= 4
    && 0 <= v.remainingBytes <= INPUT_BYTES && v.pendingReservations <= 4 && v.remainingModelSteps <= 12
    && (forall k :: 0 <= k < |projected| ==> InputInRange(projected[k]))
    && (forall k :: 0 <= k < |v.pending| ==> v.pending[k].state.Accepted?)
    && (forall k :: 0 <= k < |v.closed| ==> v.closed[k].state.Closed?)
    && v.remainingBytes == INPUT_BYTES - v.acceptedBytes
    && v.acceptedCount >= |projected| && v.acceptedBytes >= TotalBytes(projected)
    && v.pendingReservations == |v.pending|
    && |OfMode(v.pending, Steer)| <= 1 && |OfMode(v.pending, Queue)| <= 3
    && Distinct(projected)
  }

  predicate Ranged(s: State) {
    s.Run? ==>
      && (s.budget.Some? ==> s.budget.value.grant.modelSteps <= 12)
      && forall k :: 0 <= k < |s.inputs| ==> 1 <= s.inputs[k].bytes <= 4_096 && 1 <= s.inputs[k].step <= 12
  }

  lemma ReduceGrant(s: State, e: Event)
    requires s.Run? && Reduce(s, e).Some?
    ensures Reduce(s, e).value.Run?
    ensures Reduce(s, e).value.budget.Some? ==>
              s.budget.Some? && Reduce(s, e).value.budget.value.grant == s.budget.value.grant
  {
  }

  lemma ReduceRanged(s: State, e: Event)
    requires Ranged(s) && FromClient(e) && Reduce(s, e).Some?
    ensures Ranged(Reduce(s, e).value)
  {
    if s.Run? {
      ReduceGrant(s, e);
      ReduceInputs(s, e);
    }
  }

  lemma {:induction false} ReplayRanged(records: seq<Record>)
    requires Replay(records).Some? && forall k :: 0 <= k < |records| ==> FromClient(records[k].event)
    ensures Ranged(Replay(records).value)
  {
    if records != [] {
      ReplayRanged(records[..|records| - 1]);
      ReduceRanged(Replay(records[..|records| - 1]).value, records[|records| - 1].event);
    }
  }

  /** Every projected input is one of the ledger's, so ranges and distinctness carry over. */
  predicate Among(i: Input, inputs: seq<Input>) {
    exists k :: 0 <= k < |inputs| && inputs[k] == i
  }

  lemma {:induction false} ProjectedSizes(inputs: seq<Input>)
    ensures |Pending(inputs)| + |ClosedOf(inputs)| <= |inputs|
    ensures TotalBytes(Pending(inputs)) + TotalBytes(ClosedOf(inputs)) <= TotalBytes(inputs)
  {
    if inputs != [] {
      var front, last := inputs[..|inputs| - 1], inputs[|inputs| - 1];
      ProjectedSizes(front);
      assert (Pending(front) + [last])[..|Pending(front)|] == Pending(front);
      assert (ClosedOf(front) + [last])[..|ClosedOf(front)|] == ClosedOf(front);
      assert Pending(front) + [] == Pending(front) && ClosedOf(front) + [] == ClosedOf(front);
    }
  }

  lemma {:induction false} ProjectedAmong(inputs: seq<Input>)
    ensures forall k :: 0 <= k < |Pending(inputs)| ==> Pending(inputs)[k].state.Accepted? && Among(Pending(inputs)[k], inputs)
    ensures forall k :: 0 <= k < |ClosedOf(inputs)| ==> ClosedOf(inputs)[k].state.Closed? && Among(ClosedOf(inputs)[k], inputs)
  {
    if inputs != [] {
      var front, last := inputs[..|inputs| - 1], inputs[|inputs| - 1];
      ProjectedAmong(front);
      forall i | Among(i, front) ensures Among(i, inputs) {
        var k :| 0 <= k < |front| && front[k] == i;
        assert inputs[k] == i;
      }
      assert inputs[|inputs| - 1] == last;
    }
  }

  lemma DistinctAppend(items: seq<Input>, last: Input, inputs: seq<Input>)
    requires Distinct(inputs) && inputs != [] && last == inputs[|inputs| - 1]
    requires Distinct(items) && forall k :: 0 <= k < |items| ==> Among(items[k], inputs[..|inputs| - 1])
    ensures Distinct(items + [last])
  {
    forall k | 0 <= k < |items| ensures items[k].commandId != last.commandId && items[k].messageId != last.messageId {
      var at :| 0 <= at < |inputs| - 1 && inputs[at] == items[k];
    }
  }

  lemma {:induction false} ProjectedDistinct(inputs: seq<Input>)
    requires Distinct(inputs)
    ensures Distinct(Pending(inputs)) && Distinct(ClosedOf(inputs))
  {
    if inputs != [] {
      var front, last := inputs[..|inputs| - 1], inputs[|inputs| - 1];
      ProjectedDistinct(front);
      ProjectedAmong(front);
      DistinctAppend(Pending(front), last, inputs);
      DistinctAppend(ClosedOf(front), last, inputs);
    }
  }

  lemma {:induction false} BytesOfSum(a: seq<Input>, b: seq<Input>)
    ensures TotalBytes(a + b) == TotalBytes(a) + TotalBytes(b)
  {
    if b == [] {
      assert a + b == a;
    } else {
      assert (a + b)[..|a + b| - 1] == a + b[..|b| - 1];
      BytesOfSum(a, b[..|b| - 1]);
    }
  }

  lemma ApartDistinct(inputs: seq<Input>, a: seq<Input>, b: seq<Input>)
    requires Distinct(inputs) && Distinct(a) && Distinct(b)
    requires forall k :: 0 <= k < |a| ==> a[k].state.Accepted? && Among(a[k], inputs)
    requires forall k :: 0 <= k < |b| ==> b[k].state.Closed? && Among(b[k], inputs)
    ensures Distinct(a + b)
  {
    forall i, j | 0 <= i < |a| && 0 <= j < |b|
      ensures a[i].commandId != b[j].commandId && a[i].messageId != b[j].messageId
    {
      var k :| 0 <= k < |inputs| && inputs[k] == a[i];
      var l :| 0 <= l < |inputs| && inputs[l] == b[j];
      assert k != l;
    }
  }

  /** The view projected from any journal satisfies the product schema. */
  lemma ViewSatisfiesSchema(records: seq<Record>)
    requires records != [] && Replay(records).Some?
    requires forall k :: 0 <= k < |records| ==> FromClient(records[k].event)
    ensures Replay(records).value.Run? && SchemaOk(ViewOf(Replay(records).value))
  {
    ReplayedState(records);
    ReplayRanged(records);
    ViewOfLedger(Replay(records).value);
  }

  lemma ViewOfLedger(s: State)
    requires s.Run? && Ranged(s) && LedgerOk(s.inputs)
    ensures SchemaOk(ViewOf(s))
  {
    var pending, closed := Pending(s.inputs), ClosedOf(s.inputs);
    ProjectedSizes(s.inputs);
    ProjectedAmong(s.inputs);
    ProjectedDistinct(s.inputs);
    Modes(pending);
    BytesOfSum(pending, closed);
    ApartDistinct(s.inputs, pending, closed);
    forall k | 0 <= k < |pending + closed| ensures InputInRange((pending + closed)[k]) {
      var i := (pending + closed)[k];
      assert Among(i, s.inputs);
    }
  }

  /** The view offers a mode exactly when the smallest input of that mode, under new identities, would be accepted. */
  lemma OfferedIffAccepted(s: State, mode: Mode, commandId: Id, messageId: Id)
    requires s.Run? && !Known(s.inputs, commandId, messageId)
    ensures SubmissionReason(s, mode).None? <==> Admit(s, 1, commandId, messageId, mode).Commit?
    ensures SubmissionReason(s, mode).None? <==>
              exists step, order :: Reduce(s, InputAccepted(1, commandId, messageId, mode, step, order)).Some?
  {
    var a := Admit(s, 1, commandId, messageId, mode);
    forall step, order {
      AdmissionAgrees(s, 1, commandId, messageId, mode, step, order);
    }
    if a.Commit? { AdmissionAgrees(s, 1, commandId, messageId, mode, a.event.step, a.event.order); }
  }
}
