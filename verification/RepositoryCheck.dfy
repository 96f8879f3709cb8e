/** Executing and recovering one repository check around its write-once receipt
    (repository-check-runner.ts, repository-check-state.ts). */
module RepositoryCheck {
  import opened Results

  type Id = nat

  datatype Verdict = Passed | Failed | TimedOut | Cancelled | OutputOverflow | EngineFailed
  /** The wrapper's own report, as far as the runner decodes it: `dated` says that its two times are dates of the
      product's format, and `body` stands for its remaining fields. */
  datatype Internal = Internal(verdict: Verdict, exitCode: Option<nat>, dated: bool, body: Id)
  /** The result file: what it decodes to, whether its bytes are exactly the printed report, and whether the report with
      its receipt stays within 65,536 bytes. */
  datatype ResultFile = ResultFile(internal: Internal, exact: bool, fits: bool)
  /** How a container run ends: exit code, OOM flag and result file. */
  datatype Run = Run(exitCode: nat, oomKilled: bool, result: Option<ResultFile>)

  datatype Phase = Absent | Created | Running | Exited(run: Run) | Removed(run: Run)

  datatype Outcome = Plain(verdict: Verdict) | OutOfMemory | CleanupFailed
  datatype Durable = Durable(receiptId: Id, containerId: Id, internal: Internal, outcome: Outcome)
  /** receipt.json: missing, cut short by a crash while it was written, or whole. */
  datatype Receipt = NoReceipt | Torn | Recorded(durable: Durable)

  datatype Gone = WasRemoved | WasAbsent | NotRemoved
  datatype Cleanup = Cleanup(container: Gone, stagingRemoved: bool)
  /** repository.check.completed. */
  datatype Completed = Completed(receipt: Durable, outcome: Outcome, cleanup: Cleanup)

  /** Whether a report is acceptable to the product's result schema, which is narrower than the runner's own decoder: an exit code
      is one byte and the times are dates. `schema` is whatever else it asks. The other fields of a result are the
      plan's and the cleanup's own. */
  predicate Presentable(internal: Internal, schema: Internal -> bool) {
    internal.dated && (internal.exitCode.Some? ==> internal.exitCode.value <= 255) && schema(internal)
  }

  datatype Executed = Finished(event: Completed) | Stopped
  datatype Recovered = RecoveredCompleted(event: Completed) | RecoveredNotStarted | RecoveredUnknown

  datatype Located = Unlocatable | Nowhere | Found(id: Id)
  datatype Seen = Unseen | Seen(id: Id, phase: Phase)
  datatype Waited = WaitExited | WaitCutShort | WaitUnknown

  /** The report is usable: an OOM kill must be reported as an engine failure, anything else must exit with 0. */
  predicate Usable(run: Run) {
    run.result.Some? && (if run.oomKilled then run.result.value.internal.verdict == EngineFailed else run.exitCode == 0)
  }

  /** What a receipt needs: a report whose bytes are exactly its printed form and few enough, and an ordinary exit with 0 or
      an OOM kill that is reported as an engine failure. */
  predicate Recordable(run: Run) {
    && run.result.Some? && run.result.value.exact && run.result.value.fits
    && (run.oomKilled ==> run.result.value.internal.verdict == EngineFailed) && (!run.oomKilled ==> run.exitCode == 0)
  }

  /** What an outcome says of a run: out of memory of one that was killed for it, and otherwise the report's own verdict. */
  predicate Tells(run: Run, outcome: Outcome)
    requires run.result.Some?
  {
    && (outcome.OutOfMemory? <==> run.oomKilled) && !outcome.CleanupFailed?
    && (outcome.Plain? ==> outcome.verdict == run.result.value.internal.verdict)
  }

  function OutcomeOf(run: Run): Outcome
    requires Usable(run)
  {
    if run.oomKilled then OutOfMemory else Plain(run.result.value.internal.verdict)
  }

  predicate CleanupComplete(c: Cleanup) {
    !c.container.NotRemoved? && c.stagingRemoved
  }

  /** The completed event of a receipt and a cleanup. */
  function EventOf(durable: Durable, c: Cleanup): Completed {
    Completed(durable, if CleanupComplete(c) then durable.outcome else CleanupFailed, c)
  }

  /** One approved check with its container, state directory and dispatch mark. `reliable` on a method asks for the
      case where every port and file call does what it is told and says so. */
  class CheckHost {
    var phase: Phase
    var containerId: Id
    /** How often a start has taken effect. */
    ghost var starts: nat
    /** A wait was cut short, so the container may have been stopped or killed. */
    var disturbed: bool
    var receipt: Receipt
    /** How often a receipt was completed. */
    ghost var writes: nat
    /** The staged tree, request and result files are in place. */
    var staged: bool
    /** effect.dispatch.started is in the journal. */
    var dispatched: bool
    const natural: Run
    const schema: Internal -> bool

    constructor (natural: Run, schema: Internal -> bool)
      ensures Safe() && phase == Absent && receipt == NoReceipt && staged && !dispatched && !disturbed
      ensures this.natural == natural && this.schema == schema
    {
      phase, containerId, starts, disturbed, receipt, writes := Absent, 0, 0, false, NoReceipt, 0;
      staged, dispatched, this.natural, this.schema := true, false, natural, schema;
    }

    /** Started at most once, and only dispatched; removed only with a whole receipt; the receipt is written at most
        once and says what the run reported. */
    ghost predicate Safe()
      reads this
    {
      && starts == (if phase.Absent? || phase.Created? then 0 else 1)
      && (starts == 1 ==> dispatched)
      && (phase.Exited? || phase.Removed? ==> disturbed || phase.run == natural)
      && (phase.Removed? ==> receipt.Recorded?)
      && (!staged ==> receipt.Recorded?)
      && writes == (if receipt.Recorded? then 1 else 0)
      && (!receipt.NoReceipt? ==> phase.Exited? || phase.Removed?)
      && (receipt.Recorded? ==> Reports(receipt.durable))
    }

    ghost predicate Reports(d: Durable)
      reads this
    {
      && (phase.Exited? || phase.Removed?) && Recordable(phase.run)
      && d.internal == phase.run.result.value.internal && Tells(phase.run, d.outcome) && d.containerId == containerId
    }

    // ----- the port -----

    method Locate(reliable: bool) returns (l: Located)
      ensures l.Nowhere? ==> phase.Absent? || phase.Removed?
      ensures l.Found? ==> l.id == containerId && !phase.Absent? && !phase.Removed?
      ensures reliable ==> !l.Unlocatable?
    {
      var answers := *;
      l := if !reliable && !answers then Unlocatable
           else if phase.Absent? || phase.Removed? then Nowhere else Found(containerId);
    }

    method Create(reliable: bool) returns (id: Option<Id>)
      requires Safe() && !phase.Removed?
      modifies this`phase, this`containerId
      ensures Safe()
      ensures phase == old(phase) || (old(phase).Absent? && phase.Created?)
      ensures id.Some? ==> old(phase).Absent? && phase.Created? && id.value == containerId
      ensures reliable && old(phase).Absent? ==> id.Some?
    {
      var effect, said, made: Id := *, *, *;
      id := None;
      if phase.Absent? && (reliable || effect) {
        phase, containerId := Created, made;
        if reliable || said { id := Some(made); }
      }
    }

    method Inspect(reliable: bool) returns (seen: Seen)
      requires Safe()
      modifies this`phase
      ensures Safe() && (phase == old(phase) || (old(phase).Running? && phase == Exited(natural)))
      ensures seen.Seen? ==> seen.id == containerId && seen.phase == phase && !phase.Absent? && !phase.Removed?
      ensures reliable && !phase.Absent? && !phase.Removed? ==> seen.Seen?
    {
      var ends, answers := *, *;
      if phase.Running? && ends { phase := Exited(natural); }
      seen := if (reliable || answers) && !phase.Absent? && !phase.Removed? then Seen(containerId, phase) else Unseen;
    }

    method Start(reliable: bool) returns (ok: bool)
      requires Safe() && phase.Created? && dispatched && receipt.NoReceipt?
      modifies this`phase, this`starts
      ensures Safe() && (phase.Created? || phase.Running?)
      ensures ok ==> phase.Running?
      ensures reliable ==> ok
    {
      var effect, said := *, *;
      if reliable || effect { phase, starts := Running, starts + 1; }
      ok := phase.Running? && (reliable || said);
    }

    method Wait(reliable: bool) returns (w: Waited)
      requires Safe()
      modifies this`phase, this`disturbed
      ensures Safe() && (old(disturbed) ==> disturbed)
      ensures phase == old(phase) || (old(phase).Running? && phase == Exited(natural))
      ensures w.WaitCutShort? ==> disturbed
      ensures w.WaitExited? ==> phase.Exited?
      ensures reliable && old(phase).Running? ==> w.WaitExited? && disturbed == old(disturbed)
    {
      var ends, kind: int := *, *;
      if phase.Running? && (reliable || ends) { phase := Exited(natural); }
      if phase.Exited? && (reliable || kind == 0) { return WaitExited; }
      if kind == 1 {
        disturbed := true;
        return WaitCutShort;
      }
      w := WaitUnknown;
    }

    /** `docker stop`, and `docker kill` if it fails. */
    method StopOrKill() returns (ok: bool)
      requires Safe() && disturbed
      modifies this`phase
      ensures Safe() && disturbed && (phase == old(phase) || (old(phase).Running? && phase.Exited?))
    {
      var effect, run: Run := *, *;
      if phase.Running? && effect { phase := Exited(run); }
      ok := *;
    }

    method Remove(reliable: bool) returns (ok: bool)
      requires Safe() && phase.Exited? && receipt.Recorded?
      modifies this`phase
      ensures Safe() && (phase == old(phase) || phase == Removed(old(phase).run))
      ensures ok ==> phase.Removed?
      ensures reliable ==> ok
    {
      var effect, said := *, *;
      if reliable || effect { phase := Removed(phase.run); }
      ok := phase.Removed? && (reliable || said);
    }

    // ----- the state directory -----

    method Validate(reliable: bool) returns (ok: bool)
      ensures ok ==> staged
      ensures reliable && staged ==> ok
    {
      var answers := *;
      ok := staged && (reliable || answers);
    }

    /** None stands for `null`, Some(NoReceipt) never occurs, and a torn file reads as "unknown". */
    method ReadReceipt(reliable: bool) returns (known: bool, durable: Option<Durable>)
      ensures known ==> durable == if receipt.Recorded? then Some(receipt.durable) else None
      ensures known ==> !receipt.Torn?
      ensures reliable && !receipt.Torn? ==> known
    {
      var readable := *;
      known := (reliable || readable) && !receipt.Torn?;
      durable := if receipt.Recorded? then Some(receipt.durable) else None;
    }

    method ReadResult(reliable: bool) returns (file: Option<ResultFile>)
      requires phase.Exited?
      ensures file.Some? ==> file == phase.run.result
      ensures reliable && staged ==> file == phase.run.result
    {
      var readable := *;
      file := if staged && (reliable || readable) then phase.run.result else None;
    }

    /** recordReceipt: refused for a report whose bytes are not exact or are too many with the receipt, or when a
        receipt exists; a crash may tear it. */
    method RecordReceipt(durable: Durable, file: ResultFile, reliable: bool) returns (ok: bool)
      requires Safe() && phase.Exited? && receipt.NoReceipt? && (file.exact && file.fits ==> Reports(durable))
      modifies this`receipt, this`writes
      ensures Safe() && (receipt.NoReceipt? || receipt.Torn? || receipt == Recorded(durable))
      ensures ok ==> receipt == Recorded(durable)
      ensures reliable && file.exact && file.fits ==> ok
      ensures !file.exact || !file.fits ==> !ok && receipt == old(receipt)
    {
      if !file.exact || !file.fits { return false; }
      var begun, written, said := *, *, *;
      ok := false;
      if reliable || written {
        receipt, writes := Recorded(durable), writes + 1;
        ok := reliable || said;
      } else if begun {
        receipt := Torn;
      }
    }

    method CleanupStaging(reliable: bool) returns (ok: bool)
      requires Safe() && receipt.Recorded?
      modifies this`staged
      ensures Safe() && (ok ==> !staged) && (!old(staged) ==> !staged)
      ensures reliable ==> ok
    {
      var effect, said := *, *;
      if reliable || effect { staged := false; }
      ok := !staged && (reliable || said);
    }

    // ----- the runner -----

    /** finalizeReceipt: whatever the cleanup manages, the event carries the durable receipt; there is none if the product's
        schema refuses the report, which is found out after the cleanup. */
    method FinalizeReceipt(durable: Durable, reliable: bool) returns (cleanup: Cleanup, event: Option<Completed>)
      requires Safe() && receipt == Recorded(durable)
      modifies this`phase, this`staged
      ensures Safe() && (phase == old(phase) || phase == Removed(old(phase).run)) && (!old(staged) ==> !staged)
      ensures event == if Presentable(durable.internal, schema) then Some(EventOf(durable, cleanup)) else None
      ensures cleanup.stagingRemoved ==> !staged
      ensures !cleanup.container.NotRemoved? ==> phase.Removed?
      ensures cleanup.container.WasAbsent? ==> old(phase).Removed?
      ensures cleanup.container.WasRemoved? ==> old(phase).Exited?
      ensures reliable ==> cleanup.stagingRemoved && cleanup.container == if old(phase).Removed? then WasAbsent else WasRemoved
    {
      var located := Locate(reliable);
      var container := if located.Nowhere? then WasAbsent else NotRemoved;
      if located.Found? && located.id == durable.containerId {
        var seen := Inspect(reliable);
        if seen.Seen? && seen.id == durable.containerId && seen.phase.Exited? {
          var ok := Remove(reliable);
          container := if ok then WasRemoved else NotRemoved;
        }
      }
      var stagingRemoved := CleanupStaging(reliable);
      cleanup := Cleanup(container, stagingRemoved);
      event := if Presentable(durable.internal, schema) then Some(EventOf(durable, cleanup)) else None;
    }

    /** markDispatchStarted: durable before it returns. */
    method MarkDispatchStarted(reliable: bool) returns (ok: bool)
      requires Safe()
      modifies this`dispatched
      ensures Safe() && (ok ==> dispatched) && (old(dispatched) ==> dispatched)
      ensures reliable ==> ok
    {
      var kept := *;
      if reliable || kept { dispatched := true; }
      ok := dispatched;
    }

    /** A created container is dispatched and started, a running one awaited; false stops. */
    method RunContainer(seen: Seen, reliable: bool) returns (ok: bool)
      requires Safe() && receipt.NoReceipt? && seen.Seen? && seen.phase == phase
      requires !phase.Absent? && !phase.Removed? && (phase.Created? || dispatched)
      modifies this`phase, this`starts, this`disturbed, this`dispatched
      ensures Safe() && !phase.Absent? && !phase.Removed? && (old(disturbed) ==> disturbed) && (old(dispatched) ==> dispatched)
      ensures old(phase).Exited? ==> ok && phase == old(phase) && disturbed == old(disturbed)
      ensures reliable && !old(phase).Exited? ==> ok && phase == Exited(natural) && disturbed == old(disturbed)
    {
      if phase.Exited? { return true; }
      var current := seen.phase;
      if current.Created? {
        ok := MarkDispatchStarted(reliable);
        if !ok { return false; }
        ok := Start(reliable);
        if !ok { return false; }
        current := Running;
      }
      var waited := Wait(reliable);
      match waited {
        case WaitExited => ok := true;
        case WaitUnknown => ok := false;
        case WaitCutShort => ok := StopOrKill();
      }
    }

    /** completeContainer. */
    method CompleteContainer(seen: Seen, reliable: bool) returns (r: Executed)
      requires Safe() && receipt.NoReceipt? && staged && seen.Seen? && seen.phase == phase && seen.id == containerId
      requires !phase.Absent? && !phase.Removed? && (phase.Created? || dispatched)
      modifies this
      ensures Safe() && (r.Finished? ==> Carries(r.event)) && containerId == old(containerId)
      ensures old(phase).Exited? && !Recordable(old(phase).run) ==> r.Stopped? && receipt == old(receipt)
      ensures reliable ==>
                var run := if old(phase).Exited? then old(phase).run else natural;
                Recordable(run) ==>
                  && CleanedUp() && disturbed == old(disturbed) && receipt.durable.internal == run.result.value.internal
                  && (r.Finished? <==> Presentable(run.result.value.internal, schema))
                  && (r.Finished? ==> CleanupComplete(r.event.cleanup) && Tells(run, r.event.outcome))
    {
      var id := seen.id;
      var ok := RunContainer(seen, reliable);
      if !ok { return Stopped; }
      var after := Inspect(reliable);
      if after.Unseen? || after.id != id || !after.phase.Exited? { return Stopped; }
      var file := ReadResult(reliable);
      if file.None? || !Usable(Run(after.phase.run.exitCode, after.phase.run.oomKilled, file)) { return Stopped; }
      var receiptId: Id := *;
      var outcome := OutcomeOf(Run(after.phase.run.exitCode, after.phase.run.oomKilled, file));
      var durable := Durable(receiptId, id, file.value.internal, outcome);
      ok := RecordReceipt(durable, file.value, reliable);
      if !ok { return Stopped; }
      var cleanup, event := FinalizeReceipt(durable, reliable);
      r := if event.Some? then Finished(event.value) else Stopped;
    }

    /** The event carries the one durable receipt, whose report the product can present; its outcome is what the run that
        ended tells, or a failed cleanup. */
    ghost predicate Carries(e: Completed)
      reads this
    {
      && receipt == Recorded(e.receipt) && Presentable(e.receipt.internal, schema)
      && (phase.Exited? || phase.Removed?) && phase.run.result.Some? && e.receipt.internal == phase.run.result.value.internal
      && (e.outcome.CleanupFailed? <==> e.cleanup.container.NotRemoved? || !e.cleanup.stagingRemoved)
      && (e.outcome.CleanupFailed? || (Tells(phase.run, e.outcome) && e.outcome == e.receipt.outcome))
    }

    /** A whole receipt, with container and staging gone. */
    predicate CleanedUp()
      reads this
    {
      receipt.Recorded? && phase.Removed? && !staged
    }

    /** The durable receipt holds a report that the product cannot present: no call ever completes this check. */
    predicate Unpresentable()
      reads this
    {
      receipt.Recorded? && !Presentable(receipt.durable.internal, schema)
    }

    /** executePlannedRepositoryCheck. */
    method ExecutePlanned(reliable: bool) returns (r: Executed)
      requires Safe()
      modifies this
      ensures Safe() && (r.Finished? ==> Carries(r.event))
      ensures old(receipt).Recorded? || old(receipt).Torn? ==> receipt == old(receipt)
      ensures old(receipt).Torn? || old(Unpresentable()) ==> r.Stopped?
      ensures reliable && old(receipt).Recorded? ==> CleanedUp() && (r.Finished? <==> !Unpresentable())
      ensures reliable && old(receipt).Recorded? && r.Finished? ==>
                r.event.outcome == old(receipt).durable.outcome && CleanupComplete(r.event.cleanup)
      ensures reliable && old(phase).Absent? && Recordable(natural) ==>
                && CleanedUp() && (r.Finished? <==> Presentable(natural.result.value.internal, schema))
                && (r.Finished? ==> CleanupComplete(r.event.cleanup) && Tells(natural, r.event.outcome))
    {
      var known, durable := ReadReceipt(reliable);
      if !known { return Stopped; }
      if durable.Some? {
        var cleanup, event := FinalizeReceipt(durable.value, reliable);
        return if event.Some? then Finished(event.value) else Stopped;
      }
      var valid := Validate(reliable);
      if !valid { return Stopped; }
      var located := Locate(reliable);
      if located.Unlocatable? { return Stopped; }
      var made := None;
      if located.Nowhere? {
        made := Create(reliable);
        if made.None? { return Stopped; }
      }
      var seen := Inspect(reliable);
      if seen.Unseen? || seen.id != (if made.Some? then made.value else located.id) { return Stopped; }
      if made.Some? && !seen.phase.Created? { return Stopped; }
      r := CompleteContainer(seen, reliable);
    }

    /** recoverRepositoryCheck. `not-started` is only answered while the container was never started. */
    method Recover(reliable: bool) returns (r: Recovered)
      requires Safe()
      modifies this
      ensures Safe() && (r.RecoveredCompleted? ==> Carries(r.event))
      ensures r.RecoveredNotStarted? ==> !dispatched && starts == 0 && receipt.NoReceipt?
      ensures reliable && !old(dispatched) && old(receipt).NoReceipt? ==> r.RecoveredNotStarted?
      ensures old(receipt).Recorded? || old(receipt).Torn? ==> receipt == old(receipt)
      ensures old(receipt).Torn? || old(Unpresentable()) ==> r.RecoveredUnknown?
      ensures old(receipt).NoReceipt? && old(phase).Exited? && !Recordable(old(phase).run) ==> !r.RecoveredCompleted? && receipt == old(receipt)
      ensures reliable && old(receipt).Recorded? ==> CleanedUp() && (r.RecoveredCompleted? <==> !Unpresentable())
      ensures reliable && old(receipt).Recorded? && r.RecoveredCompleted? ==>
                r.event.outcome == old(receipt).durable.outcome && CleanupComplete(r.event.cleanup)
      ensures reliable && old(dispatched) && old(receipt).NoReceipt? && !old(phase).Absent? ==>
                var run := if old(phase).Exited? then old(phase).run else natural;
                Recordable(run) ==>
                  && CleanedUp() && (r.RecoveredCompleted? <==> Presentable(run.result.value.internal, schema))
                  && (r.RecoveredCompleted? ==> CleanupComplete(r.event.cleanup) && Tells(run, r.event.outcome))
    {
      var known, durable := ReadReceipt(reliable);
      if !known { return RecoveredUnknown; }
      if durable.Some? {
        var cleanup, event := FinalizeReceipt(durable.value, reliable);
        return if event.Some? then RecoveredCompleted(event.value) else RecoveredUnknown;
      }
      var valid := Validate(reliable);
      if !valid { return RecoveredUnknown; }
      var located := Locate(reliable);
      if located.Nowhere? { return if dispatched then RecoveredUnknown else RecoveredNotStarted; }
      if located.Unlocatable? { return RecoveredUnknown; }
      var seen := Inspect(reliable);
      if seen.Unseen? || seen.id != located.id { return RecoveredUnknown; }
      if !dispatched { return if seen.phase.Created? then RecoveredNotStarted else RecoveredUnknown; }
      var completed := CompleteContainer(seen, reliable);
      r := if completed.Finished? then RecoveredCompleted(completed.event) else RecoveredUnknown;
    }

    /** Finalizing again after any earlier, possibly partial, cleanup gives the same event, except that a container
        removed the first time is absent the second; a report that cannot be presented gives none either time. */
    method FinalizeTwice(durable: Durable, firstReliable: bool) returns (first: Option<Completed>, second: Option<Completed>)
      requires Safe() && receipt == Recorded(durable)
      modifies this`phase, this`staged
      ensures Safe() && CleanedUp() && receipt == Recorded(durable)
      ensures first.Some? == second.Some? == Presentable(durable.internal, schema)
      ensures first.Some? ==>
                var (one, two) := (first.value, second.value);
                && one.receipt == two.receipt == durable && two.outcome == durable.outcome && CleanupComplete(two.cleanup)
                && (CleanupComplete(one.cleanup) ==> one.outcome == two.outcome && two.cleanup.container.WasAbsent?)
                && (!CleanupComplete(one.cleanup) ==> one.outcome.CleanupFailed?)
    {
      var cleanup;
      cleanup, first := FinalizeReceipt(durable, firstReliable);
      cleanup, second := FinalizeReceipt(durable, true);
    }

    /** Any sequence of executions and recoveries, each interrupted anywhere. */
    method AnyHistory(calls: nat) returns (events: seq<Completed>)
      requires Safe()
      modifies this
      ensures Safe() && starts <= 1 && writes <= 1
      ensures forall k :: 0 <= k < |events| ==> Carries(events[k])
      ensures forall i, j :: 0 <= i < |events| && 0 <= j < |events| ==> events[i].receipt == events[j].receipt
      ensures Unpresentable() ==> events == []
      ensures old(Unpresentable()) ==> Unpresentable()
    {
      events := [];
      for k := 0 to calls
        invariant old(receipt).Recorded? ==> receipt == old(receipt)
        invariant Safe() && forall i :: 0 <= i < |events| ==> Carries(events[i])
      {
        var execute, reliable := *, *;
        if execute {
          var r := ExecutePlanned(reliable);
          if r.Finished? { events := events + [r.event]; }
        } else {
          var r := Recover(reliable);
          if r.RecoveredCompleted? { events := events + [r.event]; }
        }
      }
      assert events != [] ==> Carries(events[0]);
    }
  }
}
