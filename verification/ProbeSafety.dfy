/** The probe's containers and what every step of executor and recovery keeps about them and the journal. */
module ProbeSafety {
  import opened Results
  import opened ProbeJournal

  /** What a container's program did: its exit, and what its log decodes to. */
  datatype Run = Run(exitCode: nat, oomKilled: bool, output: Option<Observations>, stderrFits: bool)
  datatype Phase = Missing | Made | Running | Exited(run: Run) | Gone(ran: Option<Run>)
  /** The container of one effect: how often it was started, and whether recovery gave up waiting for it and
      went on to stop it. */
  datatype Box = Box(phase: Phase, id: Id, starts: nat, disturbed: bool)

  function BoxOf(boxes: map<Id, Box>, e: Id): Box {
    if e in boxes then boxes[e] else Box(Missing, 0, 0, false)
  }

  /** The run that ended, also of a container that is gone. */
  function Ran(b: Box): Option<Run> {
    match b.phase
    case Exited(run) => Some(run)
    case Gone(ran) => ran
    case _ => None
  }

  predicate Decodable(run: Run) {
    run.output.Some? && run.output.value.digest.Some? && run.stderrFits
  }

  /** The outcome ladder that executor and recovery share. */
  function OutcomeOf(run: Run): Outcome
    requires run.output.Some?
  {
    if run.oomKilled || run.exitCode != 0 then if run.oomKilled then OutOfMemory else Failed
    else if run.output.value.allPassed then Passed else Failed
  }

  /** decodeTerminalDraft and the result's cross-checks, without clocks. */
  predicate ReceiptFits(receipt: Receipt, draft: Draft) {
    draft.outcome == receipt.outcome && draft.observations.digest == Some(receipt.digest)
  }

  /** What an outcome says of a run. */
  predicate Tells(run: Run, outcome: Outcome)
    requires run.output.Some?
  {
    && (outcome == Passed <==> run.exitCode == 0 && !run.oomKilled && run.output.value.allPassed)
    && (outcome == OutOfMemory <==> run.oomKilled)
    && (outcome == Failed <==> !run.oomKilled && (run.exitCode != 0 || !run.output.value.allPassed))
  }

  /** A recovery that gave up waiting forces the outcome. */
  predicate Forced(b: Box, outcome: Outcome) {
    b.disturbed && (outcome == TimedOut || outcome == Cancelled)
  }

  /** Rows and digest are those of the run that ended. */
  predicate Shows(b: Box, observations: Observations, digest: Id) {
    && Ran(b).Some? && Decodable(Ran(b).value) && observations == Ran(b).value.output.value
    && observations.digest == Some(digest)
  }

  /** Draft and receipt report what the run that ended did, or that recovery gave up waiting for it. */
  predicate Reports(receipt: Receipt, draft: Draft, b: Box) {
    && Shows(b, draft.observations, receipt.digest) && receipt.outcome == draft.outcome
    && (Tells(Ran(b).value, draft.outcome) || Forced(b, draft.outcome))
  }

  /** So does a terminal result, unless the removal failed; a container it calls removed is gone. */
  predicate Concludes(result: ProbeResult, b: Box) {
    && Shows(b, result.observations, result.receipt.digest)
    && (result.cleanup.state == NotRemoved <==> result.outcome == CleanupFailed)
    && (result.cleanup.state != NotRemoved ==>
          && b.phase.Gone? && result.outcome == result.receipt.outcome
          && (Tells(Ran(b).value, result.outcome) || Forced(b, result.outcome)))
  }

  /** The terminal result reports exactly what the run did, unless its removal failed. */
  predicate ResultReports(result: ProbeResult, run: Run) {
    && Decodable(run) && result.observations == run.output.value && run.output.value.digest == Some(result.receipt.digest)
    && (result.cleanup.state == NotRemoved <==> result.outcome == CleanupFailed)
    && (result.cleanup.state != NotRemoved ==> Tells(run, result.outcome))
  }

  ghost predicate HasEvent(journal: seq<Record>, e: Id, kind: nat) {
    exists i :: 0 <= i < |journal| && Kind(journal[i].event) == kind && EffectOf(journal[i].event) == Some(e)
  }

  lemma HasEventAppend(journal: seq<Record>, r: Record, e: Id, kind: nat)
    ensures HasEvent(journal + [r], e, kind)
            <==> HasEvent(journal, e, kind) || (Kind(r.event) == kind && EffectOf(r.event) == Some(e))
  {
    var longer := journal + [r];
    assert longer[|journal|] == r;
    if HasEvent(journal, e, kind) {
      var i :| 0 <= i < |journal| && Kind(journal[i].event) == kind && EffectOf(journal[i].event) == Some(e);
      assert longer[i] == journal[i];
    }
  }

  /** Of one container: started at most once and only after its dispatch record, made only after its
      intent record, removed only after its receipt record, and never made once closed as not started. */
  ghost predicate BoxSafe(journal: seq<Record>, b: Box, e: Id, natural: Id -> Run) {
    && b.starts <= 1
    && (b.starts == 0 <==> b.phase.Missing? || b.phase.Made?)
    && (b.starts == 1 ==> HasEvent(journal, e, 4))
    && (!b.phase.Missing? ==> HasEvent(journal, e, 2))
    && (b.phase.Gone? ==> HasEvent(journal, e, 5))
    && (HasEvent(journal, e, 8) ==> b.phase.Missing?)
    && (Ran(b).Some? && !b.disturbed ==> Ran(b).value == natural(e))
  }

  /** Of one record: receipt and terminal result report what the container did, and a container that a cleanup calls
      removed or absent is gone. */
  ghost predicate RecordSafe(r: Record, boxes: map<Id, Box>) {
    match r.event
    case ReceiptEvent(receipt, draft) => ReceiptFits(receipt, draft) && Reports(receipt, draft, BoxOf(boxes, receipt.effectId))
    case CleanupEvent(cleanup) => cleanup.state != NotRemoved ==> BoxOf(boxes, cleanup.effectId).phase.Gone?
    case TerminalEvent(result) => Concludes(result, BoxOf(boxes, result.effectId))
    case _ => true
  }

  /** Of the unresolved session: how far its container can be. */
  ghost predicate StageSafe(last: Event, next: nat, b: Box) {
    && (next <= 2 ==> b.phase.Missing?)
    && (next == 3 ==> b.phase.Missing? || b.phase.Made?)
    && (next == 4 ==> b.phase.Made? && last.CreatedEvent? && last.containerId == b.id)
    && (next == 5 ==> (b.phase.Made? || b.phase.Running? || b.phase.Exited?)
                      && last.DispatchedEvent? && last.containerId == b.id)
    && (next == 6 ==> (b.phase.Exited? || b.phase.Gone?) && last.ReceiptEvent? && last.receipt.containerId == b.id)
    && (next == 7 ==> b.phase.Exited? || b.phase.Gone?)
  }

  ghost predicate LastSafe(journal: seq<Record>, boxes: map<Id, Box>) {
    match ScanOf(journal)
    case Active(next, identity) =>
      && journal != [] && StageSafe(journal[|journal| - 1].event, next, BoxOf(boxes, identity.effectId))
      && !HasEvent(journal, identity.effectId, 8)
    case _ => true
  }

  ghost predicate Safe(journal: seq<Record>, boxes: map<Id, Box>, nextId: Id, natural: Id -> Run) {
    && Valid(journal)
    && (forall i :: 0 <= i < |journal| ==> journal[i].eventId < nextId)
    && (forall e :: BoxSafe(journal, BoxOf(boxes, e), e, natural))
    && (forall i :: 0 <= i < |journal| ==> RecordSafe(journal[i], boxes))
    && LastSafe(journal, boxes)
  }

  /** The scan after one more record. */
  lemma ScanAppend(journal: seq<Record>, r: Record)
    ensures ScanOf(journal + [r]) == Step(ScanOf(journal), r)
  {
    assert (journal + [r])[..|journal|] == journal;
  }

  /** A record the validator expects, about a container that is far enough, keeps everything safe. */
  lemma AppendSafe(journal: seq<Record>, r: Record, boxes: map<Id, Box>, nextId: Id, natural: Id -> Run)
    requires Safe(journal, boxes, nextId, natural)
    requires r.sequence == |journal| + 1 && r.eventId == nextId && Step(ScanOf(journal), r) != Invalid
    requires RecordSafe(r, boxes)
    requires r.event.ClosedEvent? ==> BoxOf(boxes, r.event.effectId).phase.Missing?
    requires r.event.PreparedEvent? ==> !HasEvent(journal, r.event.effectId, 8)
    requires Step(ScanOf(journal), r).Active? ==>
               StageSafe(r.event, Step(ScanOf(journal), r).next, BoxOf(boxes, Step(ScanOf(journal), r).identity.effectId))
    ensures Safe(journal + [r], boxes, nextId + 1, natural)
  {
    hide RecordSafe, StageSafe, HasEvent, BoxSafe, Step, ScanOf;
    ScanAppend(journal, r);
    forall e ensures BoxSafe(journal + [r], BoxOf(boxes, e), e, natural) {
      BoxStays(journal, r, boxes, nextId, natural, e);
    }
    LastAfter(journal, r, boxes);
    forall i | 0 <= i < |journal + [r]| ensures RecordSafe((journal + [r])[i], boxes) {
      assert i < |journal| ==> (journal + [r])[i] == journal[i];
    }
  }

  lemma LastAfter(journal: seq<Record>, r: Record, boxes: map<Id, Box>)
    requires LastSafe(journal, boxes) && ScanOf(journal + [r]) == Step(ScanOf(journal), r) != Invalid
    requires r.event.PreparedEvent? ==> !HasEvent(journal, r.event.effectId, 8)
    requires Step(ScanOf(journal), r).Active? ==>
               StageSafe(r.event, Step(ScanOf(journal), r).next, BoxOf(boxes, Step(ScanOf(journal), r).identity.effectId))
    ensures LastSafe(journal + [r], boxes)
  {
    hide StageSafe, HasEvent, ScanOf;
    if Step(ScanOf(journal), r).Active? {
      HasEventAppend(journal, r, Step(ScanOf(journal), r).identity.effectId, 8);
    }
  }

  lemma BoxStays(journal: seq<Record>, r: Record, boxes: map<Id, Box>, nextId: Id, natural: Id -> Run, e: Id)
    requires Safe(journal, boxes, nextId, natural)
    requires r.event.ClosedEvent? ==> BoxOf(boxes, r.event.effectId).phase.Missing?
    ensures BoxSafe(journal + [r], BoxOf(boxes, e), e, natural)
  {
    hide RecordSafe, LastSafe, HasEvent, Valid;
    assert BoxSafe(journal, BoxOf(boxes, e), e, natural);
    HasEventAppend(journal, r, e, 2);
    HasEventAppend(journal, r, e, 4);
    HasEventAppend(journal, r, e, 5);
    HasEventAppend(journal, r, e, 8);
  }

  /** A change to the container of the unresolved session. */
  lemma BoxChangeSafe(journal: seq<Record>, boxes: map<Id, Box>, nextId: Id, natural: Id -> Run, b: Box)
    requires Safe(journal, boxes, nextId, natural) && ScanOf(journal).Active?
    requires var e := ScanOf(journal).identity.effectId;
             && BoxSafe(journal, b, e, natural)
             && StageSafe(journal[|journal| - 1].event, ScanOf(journal).next, b)
             && (BoxOf(boxes, e).disturbed ==> b.disturbed)
             && (Ran(BoxOf(boxes, e)).Some? ==> Ran(b) == Ran(BoxOf(boxes, e))) && (BoxOf(boxes, e).phase.Gone? ==> b.phase.Gone?)
    ensures Safe(journal, boxes[ScanOf(journal).identity.effectId := b], nextId, natural)
  {
    var e := ScanOf(journal).identity.effectId;
    var boxes' := boxes[e := b];
    forall f ensures BoxSafe(journal, BoxOf(boxes', f), f, natural) {
      assert BoxSafe(journal, BoxOf(boxes, f), f, natural);
    }
    forall i | 0 <= i < |journal| ensures RecordSafe(journal[i], boxes') {
      assert RecordSafe(journal[i], boxes);
    }
  }
}
