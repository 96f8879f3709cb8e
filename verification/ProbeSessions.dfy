/** Which probe journals are valid, said as a grammar of whole sessions (docker-diagnostic-probe-journal.ts). */
module ProbeSessions {
  import opened Results
  import opened ProbeJournal

  /** The record is the one of this position of a session, and about the session's effect. */
  predicate Placed(e: Event, k: nat, effectId: Id) {
    match k
    case 0 => e.PreparedEvent? && e.effectId == effectId
    case 1 => e.ConsumedEvent?
    case 2 => e.IntentEvent? && e.effectId == effectId
    case 3 => e.CreatedEvent? && e.effectId == effectId
    case 4 => e.DispatchedEvent? && e.effectId == effectId
    case 5 => e.ReceiptEvent? && e.receipt.effectId == effectId
    case 6 => e.CleanupEvent? && e.cleanup.effectId == effectId
    case 7 => e.TerminalEvent? && e.result.effectId == effectId
    case _ => false
  }

  /** The first records of a session, in order, all about one probe and one effect. */
  predicate Begun(session: seq<Record>) {
    && session != [] && session[0].event.PreparedEvent?
    && forall k :: 0 <= k < |session| ==>
         Placed(session[k].event, k, session[0].event.effectId) && session[k].probeId == session[0].probeId
  }

  /** A session that recovery closed after its preparation, its approval or its intent, for the reason that goes with it. */
  predicate ClosedEarly(session: seq<Record>) {
    && 2 <= |session| <= 4 && Begun(session[..|session| - 1])
    && var last := session[|session| - 1];
       last.probeId == session[0].probeId && last.event.ClosedEvent? && last.event.effectId == session[0].event.effectId
       && last.event.actionId == session[0].event.action.actionId && last.event.actionDigest == session[0].event.action.digest
       && (match |session|
           case 2 => last.event.last == ActionPrepared && last.event.reason == ApprovalNotConsumed
           case 3 => last.event.last == ApprovalConsumed && last.event.reason == PreCreateAbsent
           case _ => last.event.last == EffectIntent && last.event.reason == PreCreateAbsent)
  }

  predicate Whole(session: seq<Record>) {
    ClosedEarly(session) || (|session| == 8 && Begun(session))
  }

  /** One whole session after the other. */
  ghost predicate Sessions(records: seq<Record>)
    decreases |records|
  {
    records == [] || exists k :: 0 <= k < |records| && Sessions(records[..k]) && Whole(records[k..])
  }

  /** Whole sessions, and perhaps one that is still going on. */
  ghost predicate Grammatical(records: seq<Record>) {
    exists k :: 0 <= k <= |records| && Sessions(records[..k]) && (k == |records| || (Begun(records[k..]) && |records| - k < 8))
  }

  function IdentityOf(session: seq<Record>): Identity
    requires Begun(session)
  {
    var first := session[0];
    Identity(first.probeId, first.event.effectId, first.event.action.digest, first.event.action.actionId)
  }

  lemma BegunNext(session: seq<Record>, r: Record)
    requires Begun(session) && |session| < 8
    ensures Begun(session + [r]) <==> Placed(r.event, |session|, session[0].event.effectId) && r.probeId == session[0].probeId
    ensures var identity := IdentityOf(session);
            && (Begun(session + [r]) <==>
                  !r.event.ClosedEvent? && Kind(r.event) == |session| && r.probeId == identity.probeId
                  && (EffectOf(r.event).Some? ==> EffectOf(r.event).value == identity.effectId))
            && (ClosedEarly(session + [r]) <==>
                  r.event.ClosedEvent? && ClosureAllowed(r.event, |session|, identity) && r.probeId == identity.probeId
                  && EffectOf(r.event).value == identity.effectId)
  {
    var next := session + [r];
    assert next[..|next| - 1] == session;
    assert forall k :: 0 <= k < |session| ==> next[k] == session[k];
    if Begun(next) { assert Placed(next[|session|].event, |session|, session[0].event.effectId); }
  }

  lemma FirstRecord(r: Record)
    ensures Begun([r]) <==> r.event.PreparedEvent?
  {
  }

  /** What the validator has found after whole sessions and the beginning of another. */
  ghost predicate Stands(records: seq<Record>, k: nat, s: Scan) {
    k <= |records| && Sessions(records[..k])
    && if k == |records| then s == Idle
       else Begun(records[k..]) && |records| - k < 8 && s == Active(|records| - k, IdentityOf(records[k..]))
  }

  /** A further record either leaves the validator in step with the grammar or takes both away from it. */
  lemma StandsNext(front: seq<Record>, k: nat, s: Scan, r: Record) returns (next: nat)
    requires Stands(front, k, s)
    ensures Step(s, r) != Invalid ==> Stands(front + [r], next, Step(s, r))
  {
    var records := front + [r];
    next := k;
    assert records[..k] == front[..k];
    if k == |front| {
      assert records[k..] == [r];
      FirstRecord(r);
    } else {
      var session := front[k..];
      assert records[k..] == session + [r];
      BegunNext(session, r);
      if Step(s, r) == Idle {
        next := |records|;
        assert Whole(records[k..]) && records[..|records|] == records;
      }
    }
  }

  lemma {:induction false} ValidStands(records: seq<Record>) returns (k: nat)
    requires ScanOf(records) != Invalid
    ensures Stands(records, k, ScanOf(records))
  {
    if records == [] {
      k := 0;
    } else {
      var front, r := records[..|records| - 1], records[|records| - 1];
      k := ValidStands(front);
      k := StandsNext(front, k, ScanOf(front), r);
      assert front + [r] == records;
    }
  }

  /** The validator goes along with the beginning of a session. */
  lemma {:induction false} ScanBegun(records: seq<Record>, k: nat, n: nat)
    requires k + n <= |records| && 1 <= n < 8 && ScanOf(records[..k]) == Idle && Begun(records[k..k + n])
    ensures ScanOf(records[..k + n]) == Active(n, IdentityOf(records[k..k + n]))
    decreases n
  {
    var session := records[k..k + n];
    assert records[..k + n][..k + n - 1] == records[..k + n - 1];
    if n == 1 {
      assert session == [records[k]];
      FirstRecord(records[k]);
    } else {
      var shorter := records[k..k + n - 1];
      assert session == shorter + [records[k + n - 1]];
      BegunShorter(shorter, records[k + n - 1]);
      ScanBegun(records, k, n - 1);
      BegunNext(shorter, records[k + n - 1]);
    }
  }

  lemma BegunShorter(session: seq<Record>, r: Record)
    requires Begun(session + [r]) && session != []
    ensures Begun(session)
  {
    assert forall k :: 0 <= k < |session| ==> (session + [r])[k] == session[k];
  }

  lemma WholeFront(session: seq<Record>)
    requires Whole(session)
    ensures 2 <= |session| <= 8 && Begun(session[..|session| - 1])
  {
    var front := session[..|session| - 1];
    if !ClosedEarly(session) {
      assert session == front + [session[7]];
      BegunShorter(front, session[7]);
    }
  }

  lemma WholeStep(front: seq<Record>, r: Record)
    requires Begun(front) && |front| < 8 && Whole(front + [r])
    ensures Step(Active(|front|, IdentityOf(front)), r) == Idle
  {
    BegunNext(front, r);
  }

  lemma ScanWhole(records: seq<Record>, k: nat)
    requires k < |records| && ScanOf(records[..k]) == Idle && Whole(records[k..])
    ensures ScanOf(records) == Idle
  {
    hide Whole, Begun, Step;
    var n := |records| - k;
    var front := records[k..k + n - 1];
    WholeFront(records[k..]);
    assert records[k..][..n - 1] == front && records[k..] == front + [records[|records| - 1]];
    ScanBegun(records, k, n - 1);
    WholeStep(front, records[|records| - 1]);
    assert records[..k + n - 1] == records[..|records| - 1];
  }

  lemma {:induction false} SessionsScan(records: seq<Record>)
    requires Sessions(records)
    ensures ScanOf(records) == Idle
    decreases |records|
  {
    if records != [] {
      var k :| 0 <= k < |records| && Sessions(records[..k]) && Whole(records[k..]);
      SessionsScan(records[..k]);
      ScanWhole(records, k);
    }
  }

  /** A journal is valid exactly when its records are numbered from one, their events are distinct, and they are whole
      sessions with perhaps one unfinished at the end. */
  lemma ValidIffGrammatical(records: seq<Record>)
    ensures Valid(records) <==> Numbered(records) && DistinctEvents(records) && Grammatical(records)
    ensures Valid(records) ==> (ScanOf(records) == Idle <==> Sessions(records))
  {
    if ScanOf(records) != Invalid {
      var k := ValidStands(records);
      assert records[..|records|] == records;
    }
    if Grammatical(records) {
      var k :| 0 <= k <= |records| && Sessions(records[..k]) && (k == |records| || (Begun(records[k..]) && |records| - k < 8));
      SessionsScan(records[..k]);
      assert records[..|records|] == records;
      if k < |records| {
        assert records[k..k + (|records| - k)] == records[k..];
        ScanBegun(records, k, |records| - k);
      }
    }
    if Sessions(records) { SessionsScan(records); }
  }
}
