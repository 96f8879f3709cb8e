/** The active-input view, the client's refusals and their reasons, said from the inputs themselves
    (view-projection.ts, agent-client.ts). */
module LedgerView {
  import opened Results
  import opened Kernel
  import opened KernelFacts
  import opened RuntimeJournal
  import opened InputLedger

  /** The bytes of all inputs. */
  function SumBytes(inputs: seq<Input>): nat {
    if inputs == [] then 0 else inputs[0].bytes + SumBytes(inputs[1..])
  }

  /** How many inputs wait to be delivered. */
  function Waiting(inputs: seq<Input>): nat {
    if inputs == [] then 0 else (if inputs[0].state.Accepted? then 1 else 0) + Waiting(inputs[1..])
  }

  /** How many of them are of this mode. */
  function WaitingAs(inputs: seq<Input>, mode: Mode): nat {
    if inputs == [] then 0
    else (if inputs[0].state.Accepted? && inputs[0].mode == mode then 1 else 0) + WaitingAs(inputs[1..], mode)
  }

  lemma {:induction false} SumAppend(inputs: seq<Input>, last: Input)
    ensures SumBytes(inputs + [last]) == SumBytes(inputs) + last.bytes
    ensures Waiting(inputs + [last]) == Waiting(inputs) + if last.state.Accepted? then 1 else 0
    ensures forall mode :: WaitingAs(inputs + [last], mode)
                           == WaitingAs(inputs, mode) + if last.state.Accepted? && last.mode == mode then 1 else 0
  {
    var all := inputs + [last];
    if inputs == [] {
      assert all == [last] && all[1..] == [];
    } else {
      assert all[1..] == inputs[1..] + [last];
      SumAppend(inputs[1..], last);
    }
  }

  /** What the kernel counts from the back is what there is. */
  lemma {:induction false} Counted(inputs: seq<Input>)
    ensures TotalBytes(inputs) == SumBytes(inputs) && |Pending(inputs)| == Waiting(inputs)
    ensures forall mode :: |OfMode(Pending(inputs), mode)| == WaitingAs(inputs, mode)
  {
    if inputs != [] {
      var front, last := inputs[..|inputs| - 1], inputs[|inputs| - 1];
      Counted(front);
      SumAppend(front, last);
      assert inputs == front + [last];
      var pending := Pending(front);
      assert (pending + [last])[..|pending|] == pending && pending + [] == pending;
    }
  }

  predicate Awaits(i: Input) { i.state.Accepted? }
  predicate WasClosed(i: Input) { i.state.Closed? }

  /** Exactly the inputs of this kind, in the order in which they were accepted. */
  ghost predicate Projects(all: seq<Input>, some: seq<Input>, kind: Input -> bool) {
    && (forall i: Input :: i in some <==> i in all && kind(i))
    && forall j, k :: 0 <= j < k < |some| ==> some[j].order < some[k].order
  }

  lemma ProjectsNext(all: seq<Input>, some: seq<Input>, last: Input, kind: Input -> bool)
    requires Projects(all, some, kind) && forall i :: i in all ==> i.order < last.order
    ensures Projects(all + [last], some + if kind(last) then [last] else [], kind)
  {
    var next := some + if kind(last) then [last] else [];
    forall i ensures i in next <==> i in all + [last] && kind(i) {
      assert i in all + [last] <==> i in all || i == last;
    }
  }

  lemma {:induction false} AllProjected(inputs: seq<Input>)
    requires forall k :: 0 <= k < |inputs| ==> inputs[k].order == k
    ensures Projects(inputs, Pending(inputs), Awaits) && Projects(inputs, ClosedOf(inputs), WasClosed)
  {
    if inputs != [] {
      var front, last := inputs[..|inputs| - 1], inputs[|inputs| - 1];
      AllProjected(front);
      ProjectsNext(front, Pending(front), last, Awaits);
      ProjectsNext(front, ClosedOf(front), last, WasClosed);
      assert inputs == front + [last];
    }
  }

  /** The model steps that neither are used nor wait for an input. */
  function FreeSteps(s: State): int
    requires s.Run?
  {
    (if s.budget.None? then 0 else s.budget.value.grant.modelSteps as int - s.budget.value.usage.modelSteps) - Waiting(s.inputs)
  }

  predicate Crowded(s: State, mode: Mode)
    requires s.Run?
  {
    match mode
    case Steer => WaitingAs(s.inputs, Steer) >= 1
    case Queue => WaitingAs(s.inputs, Queue) >= 3
  }

  /** Why the view offers no input of this mode. */
  predicate ReasonTells(s: State, mode: Mode, reason: Option<Refusal>)
    requires s.Run?
  {
    var full := |s.inputs| >= 8 || SumBytes(s.inputs) >= 16_384;
    && (reason == Some(Unavailable) <==> s.phase.Terminal?)
    && (reason == Some(CapacityReached) <==> !s.phase.Terminal? && full)
    && (reason == Some(ModeFull) <==> !s.phase.Terminal? && !full && Crowded(s, mode))
    && (reason == Some(NoReservation) <==>
          !s.phase.Terminal? && !full && !Crowded(s, mode) && (s.budget.None? || FreeSteps(s) <= 0))
  }

  /** The view of any journal shows all inputs that wait and all that were closed, in the order of their acceptance, and what
      is left for more. */
  lemma ViewTells(records: seq<Record>)
    requires records != [] && Replay(records).Some?
    ensures var s := Replay(records).value;
            && s.Run?
            && var v := ViewOf(s);
            && Projects(s.inputs, v.pending, Awaits) && Projects(s.inputs, v.closed, WasClosed)
            && v.acceptedCount == |s.inputs| && v.acceptedBytes == SumBytes(s.inputs)
            && v.remainingBytes == 16_384 - SumBytes(s.inputs) && v.pendingReservations == Waiting(s.inputs)
            && v.remainingModelSteps == (if FreeSteps(s) < 0 then 0 else FreeSteps(s))
            && ReasonTells(s, Queue, v.queueReason) && ReasonTells(s, Steer, v.steerReason)
  {
    ReplayedState(records);
    var s := Replay(records).value;
    AllProjected(s.inputs);
    Counted(s.inputs);
  }

  /** Why the client refuses an input, in the order in which it looks. */
  predicate RefusalTells(s: State, bytes: nat, mode: Mode, a: Admission)
    requires s.Run?
  {
    var full := |s.inputs| >= 8 || SumBytes(s.inputs) + bytes > 16_384;
    && (a == Refused(Unavailable) <==> s.phase.Terminal?)
    && (a == Refused(CapacityReached) <==> !s.phase.Terminal? && s.budget.Some? && full)
    && (a == Refused(ModeFull) <==> !s.phase.Terminal? && s.budget.Some? && !full && Crowded(s, mode))
    && (a == Refused(NoReservation) <==>
          !s.phase.Terminal? && (s.budget.None? || (!full && !Crowded(s, mode) && FreeSteps(s) <= 0)))
  }

  /** A command id used before is a duplicate; any other input is refused for the first reason there is, or committed with the
      last model step that no waiting input has reserved by number and the next place in the ledger. */
  lemma AdmissionTells(s: State, bytes: nat, commandId: Id, messageId: Id, mode: Mode)
    requires s.Run?
    ensures var a := Admit(s, bytes, commandId, messageId, mode);
            if exists k :: 0 <= k < |s.inputs| && s.inputs[k].commandId == commandId then a.Duplicate?
            else
              && !a.Duplicate? && RefusalTells(s, bytes, mode, a)
              && (a.Commit? ==>
                    s.budget.Some?
                    && a.event == InputAccepted(bytes, commandId, messageId, mode,
                                                s.budget.value.grant.modelSteps - Waiting(s.inputs), |s.inputs|))
  {
    Counted(s.inputs);
  }
}
