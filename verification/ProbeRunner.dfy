/** Executor and recovery of the diagnostic probe over a port whose every call may fail, with or
    without having taken effect (docker-diagnostic-probe-runner.ts). */
module ProbeRunner {
  import opened Results
  import opened ProbeJournal
  import opened ProbeSafety

  datatype Located = Unknown | NotThere | Found(id: Id)
  datatype Seen = Unseen | Seen(id: Id, phase: Phase)
  datatype Waited = Code(exitCode: nat) | WaitTimedOut | WaitAborted | WaitFailed
  datatype Logged = NoLogs | Logs(output: Option<Observations>, stderrFits: bool)
  datatype RemoveReply = RemoveDone | RemoveFailed | Died
  datatype Reply = Stopped | Done(result: ProbeResult) | NotStarted

  /** The session is the same and no step of it is undone. */
  predicate Forward(before: Scan, after: Scan) {
    before == after
    || (before.Active? && (after.Idle? || (after.Active? && after.identity == before.identity && after.next >= before.next)))
  }

  /** The last session is this effect's: unresolved, or ended by its terminal record. */
  predicate LastAbout(journal: seq<Record>, effectId: Id) {
    match ScanOf(journal)
    case Active(_, identity) => identity.effectId == effectId
    case Idle => journal != [] && journal[|journal| - 1].event.TerminalEvent?
                 && journal[|journal| - 1].event.result.effectId == effectId
    case Invalid => false
  }

  /** A record the validator expects in a session keeps it going, or ends it. */
  lemma NextInSession(journal: seq<Record>, r: Record)
    requires ScanOf(journal).Active? && Step(ScanOf(journal), r) != Invalid
    ensures Forward(ScanOf(journal), ScanOf(journal + [r]))
    ensures !r.event.ClosedEvent? ==> LastAbout(journal + [r], ScanOf(journal).identity.effectId)
  {
    ScanAppend(journal, r);
  }

  /** One state directory and one Docker daemon. `reliable` on a method asks for the case where the
      journal's storage and the port do what they are told and say so. */
  class ProbeHost {
    var journal: seq<Record>
    var boxes: map<Id, Box>
    var nextId: Id
    const natural: Id -> Run

    constructor (natural: Id -> Run)
      ensures SafeNow() && journal == [] && boxes == map[] && this.natural == natural
    {
      journal, boxes, nextId, this.natural := [], map[], 0, natural;
    }

    ghost predicate SafeNow()
      reads this
    {
      Safe(journal, boxes, nextId, natural)
    }

    /** The session `identity` is unresolved and its next record is number `next`. */
    predicate At(next: nat, identity: Identity)
      reads this
    {
      ScanOf(journal) == Active(next, identity)
    }

    function BoxAt(e: Id): Box
      reads this
    {
      BoxOf(boxes, e)
    }

    // ----- the port: Docker as nondeterministic calls on one container -----

    method Create(e: Id, reliable: bool) returns (id: Option<Id>)
      modifies this`boxes
      ensures old(BoxAt(e)).phase.Missing? ==>
                (boxes == old(boxes) && id.None?)
                || (exists made :: boxes == old(boxes)[e := Box(Made, made, old(BoxAt(e)).starts, old(BoxAt(e)).disturbed)]
                                   && (id.None? || id.value == made))
      ensures !old(BoxAt(e)).phase.Missing? ==> boxes == old(boxes) && id.None?
      ensures reliable && old(BoxAt(e)).phase.Missing? ==> id.Some?
    {
      var b := BoxAt(e);
      id := None;
      var takesEffect, said, made: Id := *, *, *;
      if b.phase.Missing? && (reliable || takesEffect) {
        boxes := boxes[e := Box(Made, made, b.starts, b.disturbed)];
        if reliable || said { id := Some(made); }
      }
    }

    /** A running container may end at any time. */
    method Elapse(e: Id)
      modifies this`boxes
      ensures boxes == old(boxes)
              || (old(BoxAt(e)).phase.Running? && boxes == old(boxes)[e := old(BoxAt(e)).(phase := Exited(natural(e)))])
    {
      var ends: bool := *;
      if BoxAt(e).phase.Running? && ends {
        boxes := boxes[e := BoxAt(e).(phase := Exited(natural(e)))];
      }
    }

    method Inspect(e: Id, reliable: bool) returns (seen: Seen)
      modifies this`boxes
      ensures boxes == old(boxes)
              || (old(BoxAt(e)).phase.Running? && boxes == old(boxes)[e := old(BoxAt(e)).(phase := Exited(natural(e)))])
      ensures seen.Seen? ==> seen.id == BoxAt(e).id && seen.phase == BoxAt(e).phase
                             && !seen.phase.Missing? && !seen.phase.Gone?
      ensures reliable && !BoxAt(e).phase.Missing? && !BoxAt(e).phase.Gone? ==> seen.Seen?
    {
      Elapse(e);
      var b, answers := BoxAt(e), *;
      seen := if (reliable || answers) && !b.phase.Missing? && !b.phase.Gone? then Seen(b.id, b.phase) else Unseen;
    }

    method Locate(e: Id, reliable: bool) returns (located: Located)
      ensures located.NotThere? ==> BoxAt(e).phase.Missing? || BoxAt(e).phase.Gone?
      ensures located.Found? ==> located.id == BoxAt(e).id && !BoxAt(e).phase.Missing? && !BoxAt(e).phase.Gone?
      ensures reliable ==> !located.Unknown?
    {
      var b, answers := BoxAt(e), *;
      located := if !reliable && !answers then Unknown
                 else if b.phase.Missing? || b.phase.Gone? then NotThere else Found(b.id);
    }

    /** `docker start` would also restart an exited container. */
    method Start(e: Id, reliable: bool) returns (ok: bool)
      modifies this`boxes
      ensures boxes == old(boxes)
              || ((old(BoxAt(e)).phase.Made? || old(BoxAt(e)).phase.Exited?)
                  && boxes == old(boxes)[e := old(BoxAt(e)).(phase := Running, starts := old(BoxAt(e)).starts + 1)])
      ensures ok ==> BoxAt(e).phase.Running?
      ensures reliable && old(BoxAt(e)).phase.Made? ==> ok
    {
      var b := BoxAt(e);
      var takesEffect, said := *, *;
      if (b.phase.Made? || b.phase.Exited?) && (reliable || takesEffect) {
        boxes := boxes[e := b.(phase := Running, starts := b.starts + 1)];
      }
      ok := BoxAt(e).phase.Running? && (reliable || said);
    }

    /** `docker wait`; cutting it short leaves the container alone. */
    method Wait(e: Id, reliable: bool) returns (waited: Waited)
      modifies this`boxes
      ensures old(BoxAt(e)).phase.Running? || old(BoxAt(e)).phase.Exited? ==>
                var b := old(BoxAt(e));
                && (boxes == old(boxes) || boxes == old(boxes)[e := BoxAt(e)])
                && BoxAt(e) == b.(phase := BoxAt(e).phase)
                && (BoxAt(e).phase == b.phase || (b.phase.Running? && BoxAt(e).phase == Exited(natural(e))))
                && (waited.Code? ==> BoxAt(e).phase.Exited? && waited.exitCode == BoxAt(e).phase.run.exitCode)
                && (reliable ==> waited.Code?)
      ensures !old(BoxAt(e)).phase.Running? && !old(BoxAt(e)).phase.Exited? ==> boxes == old(boxes)
    {
      var answers, cutShort, byTimeout := *, *, *;
      waited := WaitFailed;
      if reliable || answers {
        if BoxAt(e).phase.Running? { boxes := boxes[e := BoxAt(e).(phase := Exited(natural(e)))]; }
        if BoxAt(e).phase.Exited? { waited := Code(BoxAt(e).phase.run.exitCode); }
      } else {
        Elapse(e);
        if cutShort { waited := if byTimeout then WaitTimedOut else WaitAborted; }
      }
    }

    /** `docker stop` and `docker kill`: a running container ends in some way of its own. */
    method Halt(e: Id) returns (ok: bool)
      modifies this`boxes
      ensures boxes == old(boxes)
              || (old(BoxAt(e)).phase.Running?
                  && exists run :: boxes == old(boxes)[e := old(BoxAt(e)).(phase := Exited(run), disturbed := true)])
    {
      var takesEffect, exitCode: nat, oomKilled, log: Option<Observations>, stderrFits := *, *, *, *, *;
      if BoxAt(e).phase.Running? && takesEffect {
        var run := Run(exitCode, oomKilled, log, stderrFits);
        boxes := boxes[e := BoxAt(e).(phase := Exited(run), disturbed := true)];
      }
      ok := *;
    }

    method ReadLogs(e: Id, reliable: bool) returns (logged: Logged)
      ensures BoxAt(e).phase.Exited? && logged.Logs? ==>
                logged == Logs(BoxAt(e).phase.run.output, BoxAt(e).phase.run.stderrFits)
      ensures reliable && BoxAt(e).phase.Exited? ==> logged.Logs?
    {
      var b, answers := BoxAt(e), *;
      logged := if !reliable && !answers then NoLogs
                else if b.phase.Exited? then Logs(b.phase.run.output, b.phase.run.stderrFits) else Logs(None, true);
    }

    /** `docker rm` without force: a running container stays. */
    method Remove(e: Id, reliable: bool) returns (reply: RemoveReply)
      modifies this`boxes
      ensures boxes == old(boxes)
              || ((old(BoxAt(e)).phase.Made? || old(BoxAt(e)).phase.Exited?)
                  && boxes == old(boxes)[e := old(BoxAt(e)).(phase := Gone(Ran(old(BoxAt(e)))))])
      ensures reply.RemoveDone? ==> BoxAt(e).phase.Gone?
      ensures reliable && old(BoxAt(e)).phase.Exited? ==> reply.RemoveDone?
    {
      var b := BoxAt(e);
      var takesEffect, said, dies := *, *, *;
      if (b.phase.Made? || b.phase.Exited?) && (reliable || takesEffect) {
        boxes := boxes[e := b.(phase := Gone(Ran(b)))];
      }
      reply := if BoxAt(e).phase.Gone? && (reliable || said) then RemoveDone else if dies then Died else RemoveFailed;
    }

    // ----- the journal -----

    /** DockerDiagnosticProbeJournal.append: the record is validated against the whole journal, and the
        write may be lost, or durable without being acknowledged. */
    method Append(probeId: Id, event: Event, reliable: bool) returns (ok: bool)
      requires SafeNow() && Expected(probeId, event)
      modifies this`journal, this`nextId
      ensures SafeNow()
      ensures journal == old(journal) || Appended(old(journal), probeId, event)
      ensures ok ==> Appended(old(journal), probeId, event)
      ensures journal != old(journal) ==> ScanOf(journal) == Step(old(ScanOf(journal)), journal[|journal| - 1])
      ensures old(ScanOf(journal)).Active? ==> Forward(old(ScanOf(journal)), ScanOf(journal))
      ensures old(ScanOf(journal)).Active? && !event.ClosedEvent? ==> About(old(ScanOf(journal)).identity.effectId)
      ensures reliable ==> ok
    {
      hide RecordSafe, StageSafe, BoxSafe, LastSafe, HasEvent, Step, ScanOf, Kind, EffectOf, ClosureAllowed;
      var record := Record(|journal| + 1, nextId, probeId, event);
      var valid := ValidateSequence(journal + [record]);
      assert valid by { ScanAppend(journal, record); }
      if ScanOf(journal).Active? { NextInSession(journal, record); }
      nextId := nextId + 1;
      var durable, said := *, *;
      ok := false;
      if valid && (reliable || durable) {
        ScanAppend(journal, record);
        AppendSafe(journal, record, boxes, nextId - 1, natural);
        journal := journal + [record];
        ok := reliable || said;
      }
    }

    twostate predicate Appended(before: seq<Record>, probeId: Id, event: Event)
      reads this
    {
      journal == before + [Record(|before| + 1, old(nextId), probeId, event)]
    }

    /** The validator accepts this event next, and the containers are far enough for it. */
    ghost predicate Expected(probeId: Id, event: Event)
      reads this
    {
      var r := Record(|journal| + 1, nextId, probeId, event);
      var s := Step(ScanOf(journal), r);
      && s != Invalid
      && RecordSafe(r, boxes)
      && (event.ClosedEvent? ==> BoxAt(event.effectId).phase.Missing?)
      && (event.PreparedEvent? ==> !HasEvent(journal, event.effectId, 8))
      && (s.Active? ==> StageSafe(event, s.next, BoxAt(s.identity.effectId)))
    }

    // ----- the port, as the runner calls it -----

    lemma BoxNow(next: nat, identity: Identity)
      requires SafeNow() && At(next, identity)
      ensures BoxSafe(journal, BoxAt(identity.effectId), identity.effectId, natural)
      ensures journal != [] && StageSafe(journal[|journal| - 1].event, next, BoxAt(identity.effectId))
      ensures !HasEvent(journal, identity.effectId, 8)
    {
    }

    /** The unresolved session's records so far are in the journal. */
    lemma Recorded(next: nat, identity: Identity, kind: nat)
      requires SafeNow() && At(next, identity) && kind < next && kind != 1
      ensures HasEvent(journal, identity.effectId, kind)
    {
      LastSession(journal);
      var at := LastPrepared(journal) + kind;
      assert Kind(journal[at].event) == kind && EffectOf(journal[at].event) == Some(identity.effectId);
    }

    method CreateContainer(identity: Identity, reliable: bool) returns (id: Option<Id>)
      requires SafeNow() && At(3, identity) && BoxAt(identity.effectId).phase.Missing?
      modifies this`boxes
      ensures SafeNow() && BoxAt(identity.effectId).disturbed == old(BoxAt(identity.effectId)).disturbed
      ensures id.Some? ==> BoxAt(identity.effectId).phase.Made? && BoxAt(identity.effectId).id == id.value
      ensures reliable ==> id.Some?
    {
      BoxNow(3, identity);
      Recorded(3, identity, 2);
      ghost var before := boxes;
      id := Create(identity.effectId, reliable);
      if boxes != before {
        BoxChangeSafe(journal, before, nextId, natural, BoxAt(identity.effectId));
      }
    }

    method InspectContainer(next: nat, identity: Identity, reliable: bool) returns (seen: Seen)
      requires SafeNow() && At(next, identity)
      modifies this`boxes
      ensures SafeNow()
      ensures BoxAt(identity.effectId) == old(BoxAt(identity.effectId))
              || (old(BoxAt(identity.effectId)).phase.Running?
                  && BoxAt(identity.effectId) == old(BoxAt(identity.effectId)).(phase := Exited(natural(identity.effectId))))
      ensures seen.Seen? ==> seen.id == BoxAt(identity.effectId).id && seen.phase == BoxAt(identity.effectId).phase
                             && !seen.phase.Missing? && !seen.phase.Gone?
      ensures reliable && !BoxAt(identity.effectId).phase.Missing? && !BoxAt(identity.effectId).phase.Gone? ==> seen.Seen?
    {
      BoxNow(next, identity);
      ghost var before := boxes;
      seen := Inspect(identity.effectId, reliable);
      if boxes != before {
        BoxChangeSafe(journal, before, nextId, natural, BoxAt(identity.effectId));
      }
    }

    /** Only a container that is made and whose dispatch is recorded is ever started. */
    method StartContainer(identity: Identity, reliable: bool) returns (ok: bool)
      requires SafeNow() && At(5, identity) && BoxAt(identity.effectId).phase.Made?
      modifies this`boxes
      ensures SafeNow()
      ensures BoxAt(identity.effectId).id == old(BoxAt(identity.effectId)).id
              && BoxAt(identity.effectId).disturbed == old(BoxAt(identity.effectId)).disturbed
      ensures ok ==> BoxAt(identity.effectId).phase.Running?
      ensures reliable ==> ok
    {
      BoxNow(5, identity);
      Recorded(5, identity, 4);
      ghost var before := boxes;
      ok := Start(identity.effectId, reliable);
      if boxes != before {
        BoxChangeSafe(journal, before, nextId, natural, BoxAt(identity.effectId));
      }
    }

    method WaitContainer(identity: Identity, reliable: bool) returns (waited: Waited)
      requires SafeNow() && At(5, identity)
      requires BoxAt(identity.effectId).phase.Running? || BoxAt(identity.effectId).phase.Exited?
      modifies this`boxes
      ensures SafeNow()
      ensures BoxAt(identity.effectId) == old(BoxAt(identity.effectId)).(phase := BoxAt(identity.effectId).phase)
      ensures BoxAt(identity.effectId).phase == old(BoxAt(identity.effectId)).phase
              || BoxAt(identity.effectId).phase == Exited(natural(identity.effectId))
      ensures waited.Code? ==> BoxAt(identity.effectId).phase.Exited?
                               && waited.exitCode == BoxAt(identity.effectId).phase.run.exitCode
      ensures reliable ==> waited.Code?
    {
      BoxNow(5, identity);
      ghost var before := boxes;
      waited := Wait(identity.effectId, reliable);
      if boxes != before {
        BoxChangeSafe(journal, before, nextId, natural, BoxAt(identity.effectId));
      }
    }

    method HaltContainer(identity: Identity) returns (ok: bool)
      requires SafeNow() && At(5, identity) && BoxAt(identity.effectId).disturbed
      modifies this`boxes
      ensures SafeNow()
      ensures BoxAt(identity.effectId).id == old(BoxAt(identity.effectId)).id && BoxAt(identity.effectId).disturbed
    {
      BoxNow(5, identity);
      ghost var before := boxes;
      ok := Halt(identity.effectId);
      if boxes != before {
        BoxChangeSafe(journal, before, nextId, natural, BoxAt(identity.effectId));
      }
    }

    /** Only an exited container whose receipt is durable is ever removed. */
    method RemoveContainer(identity: Identity, reliable: bool) returns (reply: RemoveReply)
      requires SafeNow() && At(6, identity) && BoxAt(identity.effectId).phase.Exited?
      modifies this`boxes
      ensures SafeNow() && BoxAt(identity.effectId).disturbed == old(BoxAt(identity.effectId)).disturbed
      ensures Ran(BoxAt(identity.effectId)) == Ran(old(BoxAt(identity.effectId)))
      ensures reply.RemoveDone? ==> BoxAt(identity.effectId).phase.Gone?
      ensures reliable ==> reply.RemoveDone?
    {
      BoxNow(6, identity);
      Recorded(6, identity, 5);
      ghost var before := boxes;
      reply := Remove(identity.effectId, reliable);
      if boxes != before {
        BoxChangeSafe(journal, before, nextId, natural, BoxAt(identity.effectId));
      }
    }

    // ----- the end of a session -----

    ghost predicate About(effectId: Id)
      reads this
    {
      LastAbout(journal, effectId)
    }

    /** The terminal result of a receipt and a cleanup. */
    static function ResultOf(receipt: Receipt, draft: Draft, cleanup: Cleanup): ProbeResult {
      ProbeResult(receipt.actionId, receipt.probeId, receipt.effectId, draft.observations,
                  if cleanup.state == NotRemoved then CleanupFailed else draft.outcome, receipt, cleanup)
    }

    /** Result, receipt and cleanup are about this action, probe, effect and one container. */
    static predicate Names(result: ProbeResult, identity: Identity) {
      var (r, c) := (result.receipt, result.cleanup);
      && result.actionId == identity.actionId && result.probeId == identity.probeId && result.effectId == identity.effectId
      && r.actionId == identity.actionId && r.probeId == identity.probeId && r.effectId == identity.effectId
      && c.actionId == identity.actionId && c.probeId == identity.probeId && c.effectId == identity.effectId
      && c.containerId == r.containerId && c.receiptId == r.receiptId
    }

    ghost predicate EndsWith(reply: Reply, effectId: Id)
      reads this
    {
      reply.Done? && journal != [] && journal[|journal| - 1].event == TerminalEvent(reply.result)
      && reply.result.effectId == effectId && ScanOf(journal) == Idle
    }

    /** appendRecoveredDockerDiagnosticProbeTerminal, and the executor's last step. */
    method AppendTerminal(identity: Identity, receipt: Receipt, draft: Draft, cleanup: Cleanup, reliable: bool)
      returns (reply: Reply)
      requires SafeNow() && At(7, identity) && receipt.effectId == identity.effectId
      requires Reports(receipt, draft, BoxAt(identity.effectId))
      requires cleanup.state != NotRemoved ==> BoxAt(identity.effectId).phase.Gone?
      modifies this`journal, this`nextId
      ensures SafeNow() && old(journal) <= journal && Forward(old(ScanOf(journal)), ScanOf(journal))
      ensures About(identity.effectId)
      ensures reply.Stopped? || (EndsWith(reply, identity.effectId) && reply.result.cleanup == cleanup && reply.result.receipt == receipt
                                 && reply.result.actionId == receipt.actionId && reply.result.probeId == receipt.probeId)
      ensures reliable ==> reply.Done?
    {
      var result := ResultOf(receipt, draft, cleanup);
      var ok := Append(identity.probeId, TerminalEvent(result), reliable);
      reply := if ok then Done(result) else Stopped;
    }

    /** finalizeRecoveredDockerDiagnosticProbeReceipt: cleanup record, then terminal record. */
    method FinalizeReceipt(identity: Identity, receipt: Receipt, draft: Draft, state: CleanupState, reliable: bool)
      returns (reply: Reply)
      requires SafeNow() && At(6, identity) && receipt.effectId == identity.effectId
      requires Reports(receipt, draft, BoxAt(identity.effectId))
      requires state != NotRemoved ==> BoxAt(identity.effectId).phase.Gone?
      modifies this`journal, this`nextId
      ensures SafeNow() && old(journal) <= journal && Forward(old(ScanOf(journal)), ScanOf(journal))
      ensures About(identity.effectId)
      ensures reply.Stopped? || (EndsWith(reply, identity.effectId) && reply.result.cleanup.state == state && reply.result.receipt == receipt)
      ensures reply.Done? && receipt.actionId == identity.actionId && receipt.probeId == identity.probeId ==> Names(reply.result, identity)
      ensures reliable ==> reply.Done?
    {
      hide ScanOf, Safe, Reports;
      BoxNow(6, identity);
      var cleanup := Cleanup(identity.actionId, identity.probeId, identity.effectId, receipt.containerId, receipt.receiptId, state);
      var ok := Append(identity.probeId, CleanupEvent(cleanup), reliable);
      if !ok { return Stopped; }
      reply := AppendTerminal(identity, receipt, draft, cleanup, reliable);
    }

    /** The output and outcome are what the run that ended did, or recovery gave up waiting for it. */
    ghost predicate Ended(identity: Identity, output: Observations, outcome: Outcome)
      reads this
    {
      var b := BoxAt(identity.effectId);
      && Ran(b).Some? && Decodable(Ran(b).value) && output == Ran(b).value.output.value
      && (Tells(Ran(b).value, outcome) || Forced(b, outcome))
    }

    method RecordReceipt(identity: Identity, containerId: Id, output: Observations, outcome: Outcome, reliable: bool)
      returns (receipt: Receipt, draft: Draft, ok: bool)
      requires SafeNow() && At(5, identity) && BoxAt(identity.effectId).phase.Exited? && output.digest.Some?
      requires Ended(identity, output, outcome) && containerId == BoxAt(identity.effectId).id
      modifies this`journal, this`nextId
      ensures SafeNow() && old(journal) <= journal && Forward(old(ScanOf(journal)), ScanOf(journal))
      ensures About(identity.effectId)
      ensures ok ==> At(6, identity)
      ensures receipt.effectId == identity.effectId && receipt.outcome == outcome
      ensures receipt.actionId == identity.actionId && receipt.probeId == identity.probeId && receipt.containerId == containerId
      ensures Reports(receipt, draft, BoxAt(identity.effectId))
      ensures reliable ==> ok
    {
      receipt := Receipt(identity.actionId, identity.probeId, identity.effectId, containerId, nextId, outcome, output.digest.value);
      nextId := nextId + 1;
      draft := Draft(output, outcome);
      ok := Append(identity.probeId, ReceiptEvent(receipt, draft), reliable);
    }

    /** The common tail of executor and recovery: receipt, removal, cleanup, terminal. */
    method RecordOutcome(identity: Identity, containerId: Id, output: Observations, outcome: Outcome, reliable: bool)
      returns (reply: Reply)
      requires SafeNow() && At(5, identity) && BoxAt(identity.effectId).phase.Exited? && output.digest.Some?
      requires Ended(identity, output, outcome) && containerId == BoxAt(identity.effectId).id
      modifies this
      ensures SafeNow() && old(journal) <= journal && Forward(old(ScanOf(journal)), ScanOf(journal))
      ensures About(identity.effectId)
      ensures reply.Stopped? || (EndsWith(reply, identity.effectId) && reply.result.receipt.outcome == outcome)
      ensures reply.Done? ==> Names(reply.result, identity) && reply.result.receipt.containerId == containerId
      ensures reliable ==> reply.Done? && reply.result.cleanup.state == Removed
      ensures BoxAt(identity.effectId).disturbed == old(BoxAt(identity.effectId)).disturbed
      ensures Ran(BoxAt(identity.effectId)) == Ran(old(BoxAt(identity.effectId)))
    {
      var receipt, draft, ok := RecordReceipt(identity, containerId, output, outcome, reliable);
      if !ok { return Stopped; }
      var removed := RemoveContainer(identity, reliable);
      if removed.Died? { return Stopped; }
      reply := FinalizeReceipt(identity, receipt, draft, if removed.RemoveDone? then Removed else NotRemoved, reliable);
    }

    // ----- the executor -----

    /** No record and no container of this effect exists yet. */
    predicate Fresh(effectId: Id)
      reads this
    {
      forall i :: 0 <= i < |journal| ==> EffectOf(journal[i].event) != Some(effectId)
    }

    method RecordPrepared(action: Action, identity: Identity, reliable: bool) returns (ok: bool)
      requires SafeNow() && Fresh(identity.effectId) && ScanOf(journal) == Idle
      requires identity == Identity(action.probeId, identity.effectId, action.digest, action.actionId)
      modifies this`journal, this`nextId
      ensures SafeNow() && old(journal) <= journal && BoxAt(identity.effectId).phase.Missing?
      ensures journal == old(journal) || About(identity.effectId)
      ensures ok ==> At(1, identity)
      ensures reliable ==> ok
    {
      assert BoxSafe(journal, BoxAt(identity.effectId), identity.effectId, natural);
      ok := Append(action.probeId, PreparedEvent(action, identity.effectId), reliable);
    }

    /** The approval and the intent, after which Docker may be asked for the container. */
    method RecordIntent(identity: Identity, reliable: bool) returns (ok: bool)
      requires SafeNow() && At(1, identity)
      modifies this`journal, this`nextId
      ensures SafeNow() && old(journal) <= journal
      ensures About(identity.effectId)
      ensures ok ==> At(3, identity)
      ensures reliable ==> ok
    {
      BoxNow(1, identity);
      ok := Append(identity.probeId, ConsumedEvent(identity.actionDigest, identity.actionId), reliable);
      if !ok { return; }
      ok := Append(identity.probeId, IntentEvent(identity.actionId, identity.effectId), reliable);
    }

    method RecordCreated(identity: Identity, containerId: Id, reliable: bool) returns (ok: bool)
      requires SafeNow() && At(3, identity) && BoxAt(identity.effectId).phase.Made? && BoxAt(identity.effectId).id == containerId
      modifies this`journal, this`nextId
      ensures SafeNow() && old(journal) <= journal && Forward(old(ScanOf(journal)), ScanOf(journal))
      ensures About(identity.effectId)
      ensures ok ==> At(4, identity)
      ensures reliable ==> ok
    {
      ok := Append(identity.probeId, CreatedEvent(containerId, identity.effectId), reliable);
    }

    method RecordDispatched(identity: Identity, containerId: Id, reliable: bool) returns (ok: bool)
      requires SafeNow() && At(4, identity) && BoxAt(identity.effectId).phase.Made? && BoxAt(identity.effectId).id == containerId
      modifies this`journal, this`nextId
      ensures SafeNow() && old(journal) <= journal && Forward(old(ScanOf(journal)), ScanOf(journal))
      ensures About(identity.effectId)
      ensures ok ==> At(5, identity)
      ensures reliable ==> ok
    {
      ok := Append(identity.probeId, DispatchedEvent(containerId, identity.effectId), reliable);
    }

    /** Creates the container, checks it, and records creation and dispatch. */
    method CreateAndDispatch(identity: Identity, reliable: bool) returns (containerId: Id, ok: bool)
      requires SafeNow() && At(3, identity) && BoxAt(identity.effectId).phase.Missing?
      modifies this
      ensures SafeNow() && old(journal) <= journal
      ensures About(identity.effectId)
      ensures ok ==> At(5, identity) && BoxAt(identity.effectId).phase.Made? && BoxAt(identity.effectId).id == containerId
      ensures BoxAt(identity.effectId).disturbed == old(BoxAt(identity.effectId)).disturbed
      ensures reliable ==> ok
    {
      containerId, ok := 0, false;
      var created := CreateContainer(identity, reliable);
      if created.None? { return; }
      containerId := created.value;
      var seen := InspectContainer(3, identity, reliable);
      if seen.Unseen? || !seen.phase.Made? || seen.id != containerId { return; }
      ok := RecordCreated(identity, containerId, reliable);
      if !ok { return; }
      ok := RecordDispatched(identity, containerId, reliable);
    }

    /** What executor and recovery read off an exited container. */
    method ReadOutcome(identity: Identity, containerId: Id, seen: Seen, waited: Option<nat>, forced: Option<Outcome>,
                       reliable: bool)
      returns (read: Option<(Observations, Outcome)>)
      requires SafeNow() && At(5, identity)
      requires seen.Seen? ==> seen.id == BoxAt(identity.effectId).id && seen.phase == BoxAt(identity.effectId).phase
      requires forced.Some? ==> Forced(BoxAt(identity.effectId), forced.value)
      ensures read.Some? ==> BoxAt(identity.effectId).phase.Exited? && BoxAt(identity.effectId).id == containerId
                             && read.value.0.digest.Some? && Ended(identity, read.value.0, read.value.1)
                             && Decodable(BoxAt(identity.effectId).phase.run)
                             && (if forced.Some? then read.value.1 == forced.value
                                 else Tells(BoxAt(identity.effectId).phase.run, read.value.1))
      ensures reliable && seen.Seen? && seen.phase.Exited? && seen.id == containerId && Decodable(seen.phase.run)
                && (waited.None? || waited.value == seen.phase.run.exitCode)
              ==> read.Some?
    {
      BoxNow(5, identity);
      var logs := ReadLogs(identity.effectId, reliable);
      if seen.Unseen? || !seen.phase.Exited? || seen.id != containerId
         || (waited.Some? && seen.phase.run.exitCode != waited.value) || logs.NoLogs? || !logs.stderrFits {
        return None;
      }
      if logs.output.None? || logs.output.value.digest.None? {
        return None;
      }
      var outcome := if forced.Some? then forced.value
                     else OutcomeOf(Run(seen.phase.run.exitCode, seen.phase.run.oomKilled, logs.output, logs.stderrFits));
      return Some((logs.output.value, outcome));
    }

    lemma ValidNow()
      requires SafeNow()
      ensures Valid(journal) && ScanOf(journal) != Invalid && (journal == [] ==> ScanOf(journal) == Idle)
    {
    }

    /** A session that ended reports the run of a container that was left alone. */
    lemma DoneReports(reply: Reply, effectId: Id)
      requires SafeNow() && EndsWith(reply, effectId)
      ensures !BoxAt(effectId).disturbed ==> ResultReports(reply.result, natural(effectId))
    {
      assert RecordSafe(journal[|journal| - 1], boxes);
    }

    method Execute(action: Action, effectId: Id, approved: bool, reliable: bool) returns (reply: Reply)
      requires SafeNow() && Fresh(effectId)
      modifies this
      ensures SafeNow() && old(journal) <= journal
      ensures journal == old(journal) || About(effectId)
      ensures reply.Stopped?
              || (EndsWith(reply, effectId) && Names(reply.result, Identity(action.probeId, effectId, action.digest, action.actionId)))
      ensures BoxAt(effectId).disturbed == old(BoxAt(effectId)).disturbed
      ensures !approved || old(ScanOf(journal)).Active? ==> reply.Stopped? && journal == old(journal) && boxes == old(boxes)
      ensures reliable && approved && old(ScanOf(journal)) == Idle && Decodable(natural(effectId)) && !old(BoxAt(effectId)).disturbed
              ==> reply.Done? && ResultReports(reply.result, natural(effectId)) && reply.result.cleanup.state == Removed
    {
      hide ScanOf, Reports, ResultReports, Mirrors, LastAbout, Safe;
      ValidNow();
      if !approved { return Stopped; }
      if journal != [] { ProjectionAgrees(journal); }
      var projection := Project(journal);
      if projection.Session? && !projection.resolved { return Stopped; }
      var identity := Identity(action.probeId, effectId, action.digest, action.actionId);
      var ok := RecordPrepared(action, identity, reliable);
      if !ok { return Stopped; }
      ok := RecordIntent(identity, reliable);
      if !ok { return Stopped; }
      var revalidated := *;
      if !reliable && !revalidated { return Stopped; }
      var containerId;
      containerId, ok := CreateAndDispatch(identity, reliable);
      if !ok { return Stopped; }
      reply := RunDispatched(identity, containerId, reliable);
      if reply.Done? { DoneReports(reply, effectId); }
    }

    /** The executor from dispatch on: start, wait, inspect, logs, outcome. */
    method RunDispatched(identity: Identity, containerId: Id, reliable: bool) returns (reply: Reply)
      requires SafeNow() && At(5, identity) && BoxAt(identity.effectId).phase.Made? && BoxAt(identity.effectId).id == containerId
      modifies this
      ensures SafeNow() && old(journal) <= journal
      ensures About(identity.effectId)
      ensures reply.Stopped? || (EndsWith(reply, identity.effectId) && Names(reply.result, identity))
      ensures reliable && Decodable(natural(identity.effectId)) ==> reply.Done? && reply.result.cleanup.state == Removed
      ensures BoxAt(identity.effectId).disturbed == old(BoxAt(identity.effectId)).disturbed
    {
      var started := StartContainer(identity, reliable);
      if !started { return Stopped; }
      var waited := WaitContainer(identity, reliable);
      if !waited.Code? { return Stopped; }
      var seen := InspectContainer(5, identity, reliable);
      if seen.Unseen? { return Stopped; }
      var read := ReadOutcome(identity, containerId, seen, Some(waited.exitCode), None, reliable);
      if read.None? { return Stopped; }
      reply := RecordOutcome(identity, containerId, read.value.0, read.value.1, reliable);
    }

    // ----- recovery -----

    /** The run that recovery will find: the one that ended, or the container's natural one. */
    function RunFound(e: Id): Run
      reads this
    {
      if BoxAt(e).phase.Exited? then BoxAt(e).phase.run else natural(e)
    }

    /** Recovery's own wait, cut short, is followed by stop and, failing that, kill; from then on the outcome is forced. */
    method StopAfterTimeout(identity: Identity) returns (seen: Seen, ok: bool)
      requires SafeNow() && At(5, identity)
      modifies this`boxes
      ensures SafeNow() && BoxAt(identity.effectId).disturbed
      ensures seen.Seen? ==> seen.id == BoxAt(identity.effectId).id && seen.phase == BoxAt(identity.effectId).phase
    {
      seen := Unseen;
      BoxNow(5, identity);
      ghost var before := boxes;
      boxes := boxes[identity.effectId := BoxAt(identity.effectId).(disturbed := true)];
      BoxChangeSafe(journal, before, nextId, natural, BoxAt(identity.effectId));
      ok := HaltContainer(identity);
      if !ok {
        ok := HaltContainer(identity);
        if !ok { return; }
      }
      seen := InspectContainer(5, identity, false);
    }

    /** completeRecoveredDockerDiagnosticProbe, entered with what the last inspection showed. */
    method CompleteRecovered(identity: Identity, containerId: Id, entry: Seen, reliable: bool)
      returns (reply: Reply, ghost wait: Option<Waited>)
      requires SafeNow() && At(5, identity) && entry.Seen? && entry.phase == BoxAt(identity.effectId).phase
      requires BoxAt(identity.effectId).id == containerId && entry.id == containerId
      modifies this
      ensures SafeNow() && old(journal) <= journal && Forward(old(ScanOf(journal)), ScanOf(journal))
      ensures reply.Stopped? || (EndsWith(reply, identity.effectId) && Names(reply.result, identity))
      ensures Recounts(reply, wait, identity.effectId)
      ensures reliable || old(BoxAt(identity.effectId)).phase.Exited? ==>
                (!Decodable(old(RunFound(identity.effectId))) ==> reply.Stopped? && journal == old(journal))
      ensures old(BoxAt(identity.effectId)).phase.Exited? && !Decodable(old(RunFound(identity.effectId))) ==>
                BoxAt(identity.effectId) == old(BoxAt(identity.effectId))
      ensures reliable && Decodable(old(RunFound(identity.effectId))) ==>
                reply.Done? && reply.result.cleanup.state == Removed
                && BoxAt(identity.effectId).disturbed == old(BoxAt(identity.effectId)).disturbed
    {
      hide RecordSafe, Reports, HasEvent, LastAbout, LastSafe, Tells, Names;
      BoxNow(5, identity);
      wait := None;
      if entry.phase.Made? {
        var started := StartContainer(identity, reliable);
        if !started { return Stopped, None; }
      }
      var seen, waited, forced, ok;
      seen, waited, forced, ok, wait := AwaitExit(identity, entry, reliable);
      reply := Stopped;
      if !ok || seen.Unseen? { return; }
      var read := ReadOutcome(identity, containerId, seen, waited, forced, reliable);
      if read.None? { return; }
      reply := RecordOutcome(identity, containerId, read.value.0, read.value.1, reliable);
      if reply.Done? { DoneConcludes(reply, identity.effectId); }
    }

    /** A finished recovery reports the run that ended, or that its own wait timed out or was aborted. */
    ghost predicate Recounts(reply: Reply, wait: Option<Waited>, effectId: Id)
      reads this
    {
      reply.Done? ==>
        var (b, result) := (BoxAt(effectId), reply.result);
        && Shows(b, result.observations, result.receipt.digest)
        && (result.cleanup.state == NotRemoved <==> result.outcome == CleanupFailed)
        && (result.cleanup.state != NotRemoved ==>
              match wait
              case Some(WaitTimedOut) => result.outcome == TimedOut
              case Some(WaitAborted) => result.outcome == Cancelled
              case _ => Tells(Ran(b).value, result.outcome))
    }

    /** Waits for a container that has not been seen exited, stopping it when the wait is cut short. */
    method AwaitExit(identity: Identity, entry: Seen, reliable: bool)
      returns (seen: Seen, waited: Option<nat>, forced: Option<Outcome>, ok: bool, ghost wait: Option<Waited>)
      requires SafeNow() && At(5, identity)
      requires entry.Seen? && entry.id == BoxAt(identity.effectId).id
      requires if entry.phase.Exited? then entry.phase == BoxAt(identity.effectId).phase
               else BoxAt(identity.effectId).phase.Running?
      modifies this`boxes
      ensures SafeNow()
      ensures seen.Seen? ==> seen.id == BoxAt(identity.effectId).id && seen.phase == BoxAt(identity.effectId).phase
      ensures forced.Some? ==> BoxAt(identity.effectId).disturbed
      ensures match wait
              case Some(WaitTimedOut) => forced == Some(TimedOut)
              case Some(WaitAborted) => forced == Some(Cancelled)
              case _ => forced.None?
      ensures entry.phase.Exited? ==> boxes == old(boxes)
      ensures reliable ==> ok && seen.Seen? && seen.phase == Exited(old(RunFound(identity.effectId)))
                           && seen.id == old(BoxAt(identity.effectId)).id
                           && (waited.None? || waited.value == seen.phase.run.exitCode)
                           && BoxAt(identity.effectId).disturbed == old(BoxAt(identity.effectId)).disturbed
    {
      seen, waited, forced, ok, wait := entry, None, None, true, None;
      if entry.phase.Exited? { return; }
      var reply := WaitContainer(identity, reliable);
      wait := Some(reply);
      if reply.Code? {
        waited := Some(reply.exitCode);
        seen := InspectContainer(5, identity, reliable);
      } else if reply.WaitTimedOut? || reply.WaitAborted? {
        forced := Some(if reply.WaitTimedOut? then TimedOut else Cancelled);
        seen, ok := StopAfterTimeout(identity);
      } else {
        seen, ok := Unseen, false;
      }
    }

    /** closeNotStarted. */
    method CloseNotStarted(next: nat, identity: Identity, last: Lifecycle, reason: Reason, reliable: bool) returns (reply: Reply)
      requires SafeNow() && At(next, identity) && BoxAt(identity.effectId).phase.Missing?
      requires ClosureAllowed(ClosedEvent(identity.actionDigest, identity.actionId, identity.effectId, last, reason), next, identity)
      modifies this`journal, this`nextId
      ensures SafeNow() && old(journal) <= journal && Forward(old(ScanOf(journal)), ScanOf(journal))
      ensures reply.Stopped? || reply.NotStarted?
      ensures reply.NotStarted? ==> ScanOf(journal) == Idle && journal != [] && journal[|journal| - 1].event.ClosedEvent?
                                    && BoxAt(identity.effectId).starts == 0
      ensures reliable ==> reply.NotStarted?
    {
      BoxNow(next, identity);
      var closure := ClosedEvent(identity.actionDigest, identity.actionId, identity.effectId, last, reason);
      var ok := Append(identity.probeId, closure, reliable);
      reply := if ok then NotStarted else Stopped;
    }

    /** Recovery after the approval or intent record: nothing was created, or the exact created
        container is there and only its records are missing. */
    method RecoverIntent(next: nat, identity: Identity, reliable: bool) returns (reply: Reply, ghost wait: Option<Waited>)
      requires SafeNow() && At(next, identity) && (next == 2 || next == 3)
      modifies this
      ensures SafeNow() && old(journal) <= journal && Forward(old(ScanOf(journal)), ScanOf(journal))
      ensures Recounts(reply, wait, identity.effectId)
      ensures Recovered(reply, identity.effectId) && (reply.Done? ==> Names(reply.result, identity))
      ensures reliable && Decodable(old(RunFound(identity.effectId))) ==>
                !reply.Stopped? && (reply.Done? ==> reply.result.cleanup.state == Removed)
                && BoxAt(identity.effectId).disturbed == old(BoxAt(identity.effectId)).disturbed
    {
      BoxNow(next, identity);
      wait := None;
      var located := Locate(identity.effectId, reliable);
      if located.NotThere? {
        reply := CloseNotStarted(next, identity, if next == 2 then ApprovalConsumed else EffectIntent, PreCreateAbsent, reliable);
      } else if next == 3 && located.Found? {
        reply, wait := AdoptCreated(identity, located.id, reliable);
      } else {
        reply := Stopped;
      }
    }

    method AdoptCreated(identity: Identity, locatedId: Id, reliable: bool) returns (reply: Reply, ghost wait: Option<Waited>)
      requires SafeNow() && At(3, identity) && BoxAt(identity.effectId).phase.Made? && BoxAt(identity.effectId).id == locatedId
      modifies this
      ensures SafeNow() && old(journal) <= journal && Forward(old(ScanOf(journal)), ScanOf(journal))
      ensures Recounts(reply, wait, identity.effectId)
      ensures reply.Stopped? || (EndsWith(reply, identity.effectId) && Names(reply.result, identity))
      ensures reliable && Decodable(old(RunFound(identity.effectId))) ==>
                reply.Done? && reply.result.cleanup.state == Removed
                && BoxAt(identity.effectId).disturbed == old(BoxAt(identity.effectId)).disturbed
    {
      hide Concludes, Reports, HasEvent, LastAbout, Shows, Tells, RecordSafe, Names;
      var seen := InspectContainer(3, identity, reliable);
      if seen.Unseen? || !seen.phase.Made? || seen.id != locatedId { return Stopped, None; }
      var ok := RecordCreated(identity, locatedId, reliable);
      if !ok { return Stopped, None; }
      ok := RecordDispatched(identity, locatedId, reliable);
      if !ok { return Stopped, None; }
      reply, wait := CompleteRecovered(identity, locatedId, seen, reliable);
    }

    ghost predicate ClosedUnstarted(effectId: Id)
      reads this
    {
      ScanOf(journal) == Idle && journal != [] && journal[|journal| - 1].event.ClosedEvent? && BoxAt(effectId).starts == 0
    }

    /** Recovery after the creation or dispatch record: the exact container goes on to its end. */
    method RecoverDispatch(next: nat, identity: Identity, containerId: Id, reliable: bool) returns (reply: Reply, ghost wait: Option<Waited>)
      requires SafeNow() && At(next, identity) && (next == 4 || next == 5) && BoxAt(identity.effectId).id == containerId
      modifies this
      ensures SafeNow() && old(journal) <= journal && Forward(old(ScanOf(journal)), ScanOf(journal))
      ensures Recounts(reply, wait, identity.effectId)
      ensures reply.Stopped? || (EndsWith(reply, identity.effectId) && Names(reply.result, identity))
      ensures reliable || old(BoxAt(identity.effectId)).phase.Exited? ==>
                (!Decodable(old(RunFound(identity.effectId))) ==> reply.Stopped?)
      ensures old(BoxAt(identity.effectId)).phase.Exited? && !Decodable(old(RunFound(identity.effectId))) ==>
                journal == old(journal) && BoxAt(identity.effectId) == old(BoxAt(identity.effectId))
      ensures reliable && Decodable(old(RunFound(identity.effectId))) ==>
                reply.Done? && reply.result.cleanup.state == Removed
                && BoxAt(identity.effectId).disturbed == old(BoxAt(identity.effectId)).disturbed
    {
      BoxNow(next, identity);
      var seen := InspectContainer(next, identity, reliable);
      if seen.Unseen? || seen.id != containerId || (next == 4 && !seen.phase.Made?) { return Stopped, None; }
      if next == 4 {
        var ok := RecordDispatched(identity, containerId, reliable);
        if !ok { return Stopped, None; }
      }
      reply, wait := CompleteRecovered(identity, containerId, seen, reliable);
    }

    /** Recovery after the receipt record: the container is gone, or is the exact exited one and is removed. */
    method RecoverReceipt(identity: Identity, receipt: Receipt, draft: Draft, reliable: bool) returns (reply: Reply)
      requires SafeNow() && At(6, identity) && receipt.effectId == identity.effectId
      requires BoxAt(identity.effectId).id == receipt.containerId
      requires Reports(receipt, draft, BoxAt(identity.effectId))
      modifies this
      ensures SafeNow() && old(journal) <= journal && Forward(old(ScanOf(journal)), ScanOf(journal))
      ensures reply.Stopped? || (EndsWith(reply, identity.effectId) && reply.result.receipt == receipt)
      ensures reliable ==> reply.Done? && reply.result.cleanup.state != NotRemoved
      ensures BoxAt(identity.effectId).disturbed == old(BoxAt(identity.effectId)).disturbed
    {
      BoxNow(6, identity);
      var located := Locate(identity.effectId, reliable);
      if located.NotThere? {
        reply := FinalizeReceipt(identity, receipt, draft, Absent, reliable);
        return;
      }
      if located.Unknown? || located.id != receipt.containerId { return Stopped; }
      var seen := InspectContainer(6, identity, reliable);
      if seen.Unseen? || !seen.phase.Exited? || seen.id != receipt.containerId { return Stopped; }
      var removed := RemoveContainer(identity, reliable);
      if removed.Died? { return Stopped; }
      reply := FinalizeReceipt(identity, receipt, draft, if removed.RemoveDone? then Removed else NotRemoved, reliable);
    }

    /** The durable receipt of an unresolved session, as recovery reads it. */
    lemma ReceiptRecorded(next: nat, identity: Identity)
      requires SafeNow() && At(next, identity) && (next == 6 || next == 7)
      ensures journal != [] && Project(journal).Session?
      ensures var p := Project(journal);
              && p.receipt.Some? && p.draft.Some? && p.receipt.value.effectId == identity.effectId
              && Reports(p.receipt.value, p.draft.value, BoxAt(identity.effectId))
              && (next == 7 ==> p.cleanup.Some? && (p.cleanup.value.state != NotRemoved ==> BoxAt(identity.effectId).phase.Gone?))
    {
      ProjectionAgrees(journal);
      LastSession(journal);
      var at := |journal| - (next - 5);
      assert RecordSafe(journal[at], boxes);
      assert Kind(journal[at].event) == 5;
    }

    lemma DoneConcludes(reply: Reply, effectId: Id)
      requires SafeNow() && EndsWith(reply, effectId)
      ensures Concludes(reply.result, BoxAt(effectId))
    {
      assert RecordSafe(journal[|journal| - 1], boxes);
    }

    /** The receipt that the journal holds for its last session. */
    function ReceiptNow(): Option<Receipt>
      reads this
    {
      if journal != [] && Valid(journal) && Project(journal).Session? then Project(journal).receipt else None
    }

    /** One recovery call: what it does depends on the last durable record. */
    method Recover(reliable: bool) returns (reply: Reply, ghost wait: Option<Waited>)
      requires SafeNow()
      modifies this
      ensures SafeNow() && old(journal) <= journal && Forward(old(ScanOf(journal)), ScanOf(journal))
      ensures !old(ScanOf(journal)).Active? ==> reply.Stopped? && journal == old(journal) && boxes == old(boxes)
      ensures old(ScanOf(journal)).Active? ==> Recovered(reply, old(ScanOf(journal)).identity.effectId)
      ensures old(ScanOf(journal)).Active? && reply.Done? ==>
                var e := old(ScanOf(journal)).identity.effectId;
                && Concludes(reply.result, BoxAt(e))
                && (old(ScanOf(journal)).next <= 5 ==>
                      Recounts(reply, wait, e) && Names(reply.result, old(ScanOf(journal)).identity))
                && (old(ScanOf(journal)).next >= 6 ==> Some(reply.result.receipt) == old(ReceiptNow()))
      ensures reliable && old(ScanOf(journal)).Active?
                && (old(ScanOf(journal)).next <= 5 ==> Decodable(old(RunFound(ScanOf(journal).identity.effectId))))
              ==> !reply.Stopped? && ScanOf(journal) == Idle
                  && (old(ScanOf(journal)).next >= 4 ==> reply.Done?)
                  && (reply.Done? && old(ScanOf(journal)).next <= 6 ==> reply.result.cleanup.state != NotRemoved)
                  && BoxAt(old(ScanOf(journal)).identity.effectId).disturbed
                     == old(BoxAt(ScanOf(journal).identity.effectId).disturbed)
      ensures old(Stuck()) ==> reply.Stopped? && Stuck() && journal == old(journal)
      ensures reliable && old(ScanOf(journal)).Active? && 4 <= old(ScanOf(journal)).next <= 5 ==>
                (reply.Done? <==> Decodable(old(RunFound(ScanOf(journal).identity.effectId))))
    {
      hide Recounts, Concludes, Reports, RecordSafe, HasEvent, Ran, Shows, Tells, Names;
      reply, wait := Stopped, None;
      if journal != [] { ProjectionAgrees(journal); }
      var projection := Project(journal);
      if projection.Empty? || projection.resolved { return; }
      ghost var next := ScanOf(journal).next;
      var identity := Identity(projection.probeId, projection.effectId, projection.action.digest, projection.action.actionId);
      BoxNow(next, identity);
      match projection.last {
        case PreparedEvent(_, _) => reply := CloseNotStarted(1, identity, ActionPrepared, ApprovalNotConsumed, reliable);
        case ConsumedEvent(_, _) => reply, wait := RecoverIntent(2, identity, reliable);
        case IntentEvent(_, _) => reply, wait := RecoverIntent(3, identity, reliable);
        case CreatedEvent(containerId, _) => reply, wait := RecoverDispatch(4, identity, containerId, reliable);
        case DispatchedEvent(containerId, _) => reply, wait := RecoverDispatch(5, identity, containerId, reliable);
        case ReceiptEvent(_, _) =>
          ReceiptRecorded(6, identity);
          reply := RecoverReceipt(identity, projection.receipt.value, projection.draft.value, reliable);
        case CleanupEvent(cleanup) =>
          ReceiptRecorded(7, identity);
          reply := AppendTerminal(identity, projection.receipt.value, projection.draft.value, projection.cleanup.value, reliable);
        case _ => assert false;
      }
      if reply.Done? { DoneConcludes(reply, identity.effectId); }
    }

    /** The last record is a terminal result of this effect that reports its container's own run. */
    ghost predicate Reported(effectId: Id)
      reads this
    {
      journal != [] && journal[|journal| - 1].event.TerminalEvent?
      && journal[|journal| - 1].event.result.effectId == effectId
      && ResultReports(journal[|journal| - 1].event.result, natural(effectId))
    }

    /** An execution that stopped anywhere, its own wait cut short or not, and then one recovery by a faithful port:
        if the stop came after the creation record, the session ends exactly as it would have uninterrupted. */
    method ExecuteAndRecover(action: Action, effectId: Id, approved: bool, reliable: bool) returns (stop: Scan)
      requires SafeNow() && Fresh(effectId) && ScanOf(journal) == Idle
      requires Decodable(natural(effectId)) && !BoxAt(effectId).disturbed
      modifies this
      ensures SafeNow() && old(journal) <= journal && ScanOf(journal) == Idle && !BoxAt(effectId).disturbed
      ensures journal == old(journal) || Reported(effectId) || ClosedUnstarted(effectId)
      ensures stop.Active? && stop.next >= 4 ==> Reported(effectId)
      ensures stop.Idle? ==> journal == old(journal) || Reported(effectId)
    {
      hide ScanOf;
      var reply := Execute(action, effectId, approved, reliable);
      stop := ScanOf(journal);
      if stop.Active? {
        BoxNow(stop.next, stop.identity);
        ghost var wait;
        reply, wait := Recover(true);
      }
      if journal != [] && journal[|journal| - 1].event.TerminalEvent? {
        assert RecordSafe(journal[|journal| - 1], boxes);
      }
    }

    /** The dispatched container has ended and its log does not decode: no recovery call resolves this. */
    predicate Stuck()
      reads this
    {
      && ScanOf(journal).Active? && ScanOf(journal).next == 5
      && BoxAt(ScanOf(journal).identity.effectId).phase.Exited?
      && !Decodable(BoxAt(ScanOf(journal).identity.effectId).phase.run)
    }

    /** How a recovery call can end for the session it found. */
    ghost predicate Recovered(reply: Reply, effectId: Id)
      reads this
    {
      match reply
      case Stopped => true
      case Done(_) => EndsWith(reply, effectId)
      case NotStarted => ClosedUnstarted(effectId)
    }
  }
  /** Any history of execute and recover calls, every one of which may stop anywhere: a container is
      started at most once, is removed only once its receipt is durable, and was never started when its
      session is closed as not started; the journal stays valid. */
  method AnyHistory(natural: Id -> Run) returns (host: ProbeHost)
    ensures Valid(host.journal)
    ensures forall e :: host.BoxAt(e).starts <= 1
    ensures forall e :: host.BoxAt(e).phase.Gone? ==> HasEvent(host.journal, e, 5)
    ensures forall e :: HasEvent(host.journal, e, 8) ==> host.BoxAt(e).starts == 0
    ensures forall e :: host.BoxAt(e).starts > 0 ==> HasEvent(host.journal, e, 4)
  {
    host := new ProbeHost(natural);
    var calls: nat := *;
    while calls > 0
      invariant fresh(host) && host.SafeNow()
    {
      var recovers, reliable, approved, action: Action, effectId: Id := *, *, *, *, *;
      if recovers {
        var _, _ := host.Recover(reliable);
      } else if host.Fresh(effectId) {
        var _ := host.Execute(action, effectId, approved, reliable);
      }
      calls := calls - 1;
    }
    assert forall e :: BoxSafe(host.journal, host.BoxAt(e), e, host.natural);
  }
}
