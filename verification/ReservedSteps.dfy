/** The numbers of the model steps that pending inputs reserve: exactly when they stay distinct (reducer.ts). */
module ReservedSteps {
  import opened Results
  import opened Kernel
  import opened KernelFacts
  import opened InputLedger
  import opened RuntimeJournal
  import opened Reservations

  predicate StepsDistinct(pending: seq<Input>) {
    forall i, j :: 0 <= i < j < |pending| ==> pending[i].step != pending[j].step
  }

  /** No pending input holds the number the next input will reserve. */
  predicate NumberFree(s: State) {
    s.Run? && s.budget.Some? ==>
      forall k :: 0 <= k < |Pending(s.inputs)| ==> Pending(s.inputs)[k].step != s.budget.value.grant.modelSteps - |Pending(s.inputs)|
  }

  lemma AcceptMoves(s: State, e: Event)
    requires s.Run? && e.InputAccepted? && Reduce(s, e).Some?
    ensures s.budget.Some? && e.step == s.budget.value.grant.modelSteps - |Pending(s.inputs)|
    ensures var after := Reduce(s, e).value;
            after.Run? && after.budget == s.budget && Pending(after.inputs) == Pending(s.inputs) + [InputOf(e)]
  {
    hide Known, OfMode, TotalBytes;
    Joins(s.inputs, InputOf(e));
  }

  /** An acceptance keeps the reserved steps distinct exactly when its number was free. */
  lemma AcceptanceDistinctIff(s: State, e: Event)
    requires s.Run? && e.InputAccepted? && Reduce(s, e).Some? && StepsDistinct(Pending(s.inputs))
    ensures Reduce(s, e).value.Run? && (StepsDistinct(Pending(Reduce(s, e).value.inputs)) <==> NumberFree(s))
  {
    hide Reduce;
    AcceptMoves(s, e);
    var pending, longer := Pending(s.inputs), Pending(Reduce(s, e).value.inputs);
    assert longer[|pending|] == InputOf(e) && forall k :: 0 <= k < |pending| ==> longer[k] == pending[k];
  }

  lemma {:induction false} WithoutAmong(inputs: seq<Input>, messageId: Id)
    ensures forall k :: 0 <= k < |Without(inputs, messageId)| ==> Without(inputs, messageId)[k] in inputs
  {
    if inputs != [] { WithoutAmong(inputs[..|inputs| - 1], messageId); }
  }

  lemma {:induction false} WithoutDistinct(inputs: seq<Input>, messageId: Id)
    requires StepsDistinct(inputs)
    ensures StepsDistinct(Without(inputs, messageId))
  {
    if inputs != [] {
      var front, last := inputs[..|inputs| - 1], inputs[|inputs| - 1];
      WithoutDistinct(front, messageId);
      WithoutAmong(front, messageId);
      forall i: Input | i in front ensures i.step != last.step {
        var k :| 0 <= k < |front| && front[k] == i;
        assert inputs[k] == i;
      }
    }
  }

  /** Nothing but an acceptance can make two reserved steps the same. */
  lemma OthersKeepDistinct(s: State, e: Event)
    requires s.Run? && !e.InputAccepted? && Reduce(s, e).Some? && StepsDistinct(Pending(s.inputs))
    ensures Reduce(s, e).value.Run? && StepsDistinct(Pending(Reduce(s, e).value.inputs))
  {
    hide Reduce;
    ReduceInputs(s, e);
    ReduceFlight(s, e);
    ClosePending(s.inputs);
    if e.InputDelivered? {
      DeliverPending(s.inputs, e.messageId, e.turnId);
      WithoutDistinct(Pending(s.inputs), e.messageId);
    }
  }

  function PendingOf(s: State): seq<Input> {
    if s.Run? then Pending(s.inputs) else []
  }

  /** At every point of the run no two pending inputs have reserved the same step. */
  predicate AlwaysDistinct(records: seq<Record>)
    requires Replay(records).Some?
  {
    StepsDistinct(PendingOf(Replay(records).value)) && (records != [] ==> AlwaysDistinct(records[..|records| - 1]))
  }

  /** Every acceptance of the run found its number free. */
  predicate AlwaysFree(records: seq<Record>)
    requires Replay(records).Some?
  {
    records != [] ==>
      var front := records[..|records| - 1];
      AlwaysFree(front) && (records[|records| - 1].event.InputAccepted? ==> NumberFree(Replay(front).value))
  }

  /** In every run each pending input has a reserved step of its own throughout exactly when every acceptance
      found its number free. */
  lemma {:induction false} DistinctIffFree(records: seq<Record>)
    requires Replay(records).Some?
    ensures AlwaysDistinct(records) <==> AlwaysFree(records)
  {
    if records != [] {
      hide Reduce;
      var front, e := records[..|records| - 1], records[|records| - 1].event;
      DistinctIffFree(front);
      var s := Replay(front).value;
      if s.Run? && AlwaysDistinct(front) {
        if e.InputAccepted? { AcceptanceDistinctIff(s, e); } else { OthersKeepDistinct(s, e); }
      } else if s.Idle? {
        StartsEmpty(e);
      }
    }
  }

  lemma StartsEmpty(e: Event)
    requires Reduce(Idle, e).Some?
    ensures e.RunStarted? && Reduce(Idle, e).value.Run? && Pending(Reduce(Idle, e).value.inputs) == []
  {
  }

  // ----- in terms of deliveries -----

  /** Pending inputs hold the grant's last steps, counting down in the order they were accepted. */
  predicate Staircase(s: State) {
    s.Run? && s.budget.Some? ==>
      forall k :: 0 <= k < |Pending(s.inputs)| ==> Pending(s.inputs)[k].step == s.budget.value.grant.modelSteps - k
  }

  /** If it is a delivery, it delivers the input that was accepted last. */
  predicate Newest(s: State, e: Event) {
    s.Run? && s.budget.Some? && e.InputDelivered? ==>
      var pending := Pending(s.inputs);
      pending != [] && e.messageId == pending[|pending| - 1].messageId
  }

  lemma DeliverMoves(s: State, d: Event)
    requires s.Run? && d.InputDelivered? && Reduce(s, d).Some? && LedgerOk(s.inputs)
    ensures var (after, pending) := (Reduce(s, d).value, Pending(s.inputs));
            && after.Run? && after.budget == s.budget && pending != []
            && |Pending(after.inputs)| == |pending| - 1
            && (d.messageId == pending[|pending| - 1].messageId ==> Pending(after.inputs) == pending[..|pending| - 1])
            && (d.messageId != pending[|pending| - 1].messageId ==>
                  |pending| >= 2 && Pending(after.inputs)[|pending| - 2] == pending[|pending| - 1])
  {
    var pending := Pending(s.inputs);
    ProjectedDistinct(s.inputs);
    DeliverOne(s, d);
    DeliverPending(s.inputs, d.messageId, d.turnId);
    var front := pending[..|pending| - 1];
    if d.messageId == pending[|pending| - 1].messageId { WithoutAbsent(front, d.messageId); }
  }

  /** After a delivery the next acceptance reserves a step of its own exactly when the delivered input was the
      last one accepted; otherwise it reserves the step that the last one holds. */
  lemma DeliveryThenAcceptance(s: State, d: Event, e: Event)
    requires s.Run? && d.InputDelivered? && e.InputAccepted? && LedgerOk(s.inputs) && Staircase(s)
    requires Reduce(s, d).Some? && Reduce(Reduce(s, d).value, e).Some?
    ensures var after := Reduce(Reduce(s, d).value, e).value;
            && after.Run? && (StepsDistinct(Pending(after.inputs)) <==> Newest(s, d))
            && (Staircase(after) <==> Newest(s, d))
            && (!Newest(s, d) ==> exists i: Input :: i in Pending(s.inputs) && i in Pending(Reduce(s, d).value.inputs)
                                                     && i.step == InputOf(e).step)
  {
    hide Reduce;
    DeliverMoves(s, d);
    AcceptMoves(Reduce(s, d).value, e);
    var pending, left := Pending(s.inputs), Pending(Reduce(s, d).value.inputs);
    var all := Pending(Reduce(Reduce(s, d).value, e).value.inputs);
    assert all[|left|] == InputOf(e);
    if !Newest(s, d) {
      assert all[|left| - 1] == left[|left| - 1] == pending[|pending| - 1];
      assert pending[|pending| - 1] in pending && left[|left| - 1] in left;
    }
  }

  lemma OthersStaircase(s: State, e: Event)
    requires s.Run? && !e.InputAccepted? && !e.InputDelivered? && Reduce(s, e).Some? && Staircase(s)
    ensures Reduce(s, e).value.Run? && Staircase(Reduce(s, e).value)
  {
    hide Reduce, Pending;
    ReduceInputs(s, e);
    ReduceFlight(s, e);
    ClosePending(s.inputs);
    ReduceGrant(s, e);
  }

  /** One record keeps the steps counting down unless it delivers another input than the newest. */
  lemma StaircaseStep(s: State, e: Event)
    requires s.Run? && Reduce(s, e).Some? && LedgerOk(s.inputs) && Staircase(s)
    ensures Reduce(s, e).value.Run? && (Staircase(Reduce(s, e).value) <==> Newest(s, e))
  {
    hide Reduce, Pending, LedgerOk;
    if e.InputAccepted? {
      AcceptMoves(s, e);
    } else if e.InputDelivered? {
      DeliverMoves(s, e);
    } else {
      OthersStaircase(s, e);
    }
  }

  predicate AlwaysStaircase(records: seq<Record>)
    requires Replay(records).Some?
  {
    Staircase(Replay(records).value) && (records != [] ==> AlwaysStaircase(records[..|records| - 1]))
  }

  /** Every delivery of the run takes the input that was accepted last. */
  predicate NewestFirst(records: seq<Record>)
    requires Replay(records).Some?
  {
    records != [] ==>
      var front := records[..|records| - 1];
      NewestFirst(front) && Newest(Replay(front).value, records[|records| - 1].event)
  }

  /** Steps that count down leave the next number free. */
  lemma {:induction false} StaircaseFree(records: seq<Record>)
    requires Replay(records).Some? && AlwaysStaircase(records)
    ensures AlwaysFree(records)
  {
    if records != [] { StaircaseFree(records[..|records| - 1]); }
  }

  /** Over whole runs: the reserved steps count down throughout, one for each pending input, exactly when every
      delivery took the input that was accepted last. */
  lemma {:induction false} StaircaseIffNewestFirst(records: seq<Record>)
    requires Replay(records).Some?
    ensures AlwaysStaircase(records) <==> NewestFirst(records)
  {
    if records != [] {
      hide Reduce, LedgerOk, Staircase, Newest;
      var front, e := records[..|records| - 1], records[|records| - 1].event;
      StaircaseIffNewestFirst(front);
      var s := Replay(front).value;
      ReplayedState(front);
      if s.Idle? {
        StartsEmpty(e);
        EmptyStaircase(Replay(records).value, e);
      } else if AlwaysStaircase(front) {
        StaircaseStep(s, e);
      }
    } else {
      EmptyStaircase(Idle, RunBlocked);
    }
  }

  lemma EmptyStaircase(s: State, e: Event)
    requires PendingOf(s) == []
    ensures Staircase(s) && Newest(Idle, e)
  {
  }

  /** So then each pending input has a reserved step of its own. */
  lemma NewestFirstDistinct(records: seq<Record>)
    requires Replay(records).Some? && NewestFirst(records)
    ensures AlwaysDistinct(records)
  {
    StaircaseIffNewestFirst(records);
    StaircaseFree(records);
    DistinctIffFree(records);
  }
}
