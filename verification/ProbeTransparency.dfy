/** What an interruption changes in a probe's result: nothing. */
module ProbeTransparency {
  import opened Results
  import opened ProbeJournal
  import opened ProbeSafety

  /** The journal holds this terminal result, its container was left alone and its removal did not fail. */
  ghost predicate EndedNormally(journal: seq<Record>, boxes: map<Id, Box>, result: ProbeResult) {
    && (exists i :: 0 <= i < |journal| && journal[i].event == TerminalEvent(result))
    && !BoxOf(boxes, result.effectId).disturbed && result.cleanup.state != NotRemoved
  }

  /** Two histories, on two machines even, whose container of one effect behaves alike: whether a
      session ran through or was stopped and recovered, any number of times and at any point, its
      terminal result has the same outcome, observations and result digest. */
  lemma InterruptionTransparent(natural: Id -> Run,
                                journal1: seq<Record>, boxes1: map<Id, Box>, nextId1: Id, result1: ProbeResult,
                                journal2: seq<Record>, boxes2: map<Id, Box>, nextId2: Id, result2: ProbeResult)
    requires Safe(journal1, boxes1, nextId1, natural) && EndedNormally(journal1, boxes1, result1)
    requires Safe(journal2, boxes2, nextId2, natural) && EndedNormally(journal2, boxes2, result2)
    requires result1.effectId == result2.effectId
    ensures result1.outcome == result2.outcome && result1.observations == result2.observations
            && result1.receipt.digest == result2.receipt.digest
  {
    var i :| 0 <= i < |journal1| && journal1[i].event == TerminalEvent(result1);
    var j :| 0 <= j < |journal2| && journal2[j].event == TerminalEvent(result2);
    assert RecordSafe(journal1[i], boxes1) && RecordSafe(journal2[j], boxes2);
    assert BoxSafe(journal1, BoxOf(boxes1, result1.effectId), result1.effectId, natural);
    assert BoxSafe(journal2, BoxOf(boxes2, result2.effectId), result2.effectId, natural);
  }

  /** A result that says passed is the report of a container that exited with 0 and passed every row. */
  lemma PassedMeansPassed(natural: Id -> Run, journal: seq<Record>, boxes: map<Id, Box>, nextId: Id, result: ProbeResult)
    requires Safe(journal, boxes, nextId, natural) && EndedNormally(journal, boxes, result)
    ensures result.outcome == Passed <==>
              var run := natural(result.effectId);
              run.exitCode == 0 && !run.oomKilled && result.observations.allPassed
  {
    var i :| 0 <= i < |journal| && journal[i].event == TerminalEvent(result);
    assert RecordSafe(journal[i], boxes);
    assert BoxSafe(journal, BoxOf(boxes, result.effectId), result.effectId, natural);
  }

  /** No result anywhere in a journal says passed of a container that did not exit with 0 on its own, was killed for memory
      or failed a row, whatever recovery did to it; and one that names a time-out or a cancellation is of a container
      that recovery gave up waiting for. */
  lemma ResultsAreTrue(natural: Id -> Run, journal: seq<Record>, boxes: map<Id, Box>, nextId: Id, result: ProbeResult)
    requires Safe(journal, boxes, nextId, natural)
    requires exists i :: 0 <= i < |journal| && journal[i].event == TerminalEvent(result)
    ensures Ran(BoxOf(boxes, result.effectId)).Some?
    ensures var (b, run) := (BoxOf(boxes, result.effectId), Ran(BoxOf(boxes, result.effectId)).value);
            && run.output.Some? && result.observations == run.output.value
            && (result.outcome == Passed ==> run.exitCode == 0 && !run.oomKilled && run.output.value.allPassed)
            && (result.outcome == OutOfMemory ==> run.oomKilled)
            && (result.outcome == Failed ==> !run.oomKilled && (run.exitCode != 0 || !run.output.value.allPassed))
            && (result.outcome == TimedOut || result.outcome == Cancelled ==> b.disturbed)
            && (result.outcome == CleanupFailed || b.phase.Gone?)
  {
    var i :| 0 <= i < |journal| && journal[i].event == TerminalEvent(result);
    assert RecordSafe(journal[i], boxes);
  }
}
