/** The diagnostic probe's journal: record order, sessions and projection (docker-diagnostic-probe-journal.ts). */
module ProbeJournal {
  import opened Results

  type Id = nat

  datatype Action = Action(actionId: Id, probeId: Id, digest: Id)
  /** The nine diagnostic rows: whether all passed, the final row's digest, and the rows themselves. */
  datatype Observations = Observations(allPassed: bool, digest: Option<Id>, rows: Id)
  datatype Outcome = Passed | Failed | OutOfMemory | TimedOut | Cancelled | CleanupFailed
  datatype Receipt = Receipt(actionId: Id, probeId: Id, effectId: Id, containerId: Id, receiptId: Id,
                             outcome: Outcome, digest: Id)
  datatype Draft = Draft(observations: Observations, outcome: Outcome)
  datatype CleanupState = Removed | Absent | NotRemoved
  datatype Cleanup = Cleanup(actionId: Id, probeId: Id, effectId: Id, containerId: Id, receiptId: Id, state: CleanupState)
  datatype ProbeResult = ProbeResult(actionId: Id, probeId: Id, effectId: Id, observations: Observations,
                                     outcome: Outcome, receipt: Receipt, cleanup: Cleanup)
  datatype Lifecycle = ActionPrepared | ApprovalConsumed | EffectIntent
  datatype Reason = ApprovalNotConsumed | PreCreateAbsent

  datatype Event =
    | PreparedEvent(action: Action, effectId: Id)
    | ConsumedEvent(actionDigest: Id, actionId: Id)
    | IntentEvent(actionId: Id, effectId: Id)
    | CreatedEvent(containerId: Id, effectId: Id)
    | DispatchedEvent(containerId: Id, effectId: Id)
    | ReceiptEvent(receipt: Receipt, draft: Draft)
    | CleanupEvent(cleanup: Cleanup)
    | TerminalEvent(result: ProbeResult)
    | ClosedEvent(actionDigest: Id, actionId: Id, effectId: Id, last: Lifecycle, reason: Reason)

  datatype Record = Record(sequence: nat, eventId: Id, probeId: Id, event: Event)

  /** Position in executionEventOrder; a recovery closure has none. */
  function Kind(e: Event): nat {
    match e
    case PreparedEvent(_, _) => 0
    case ConsumedEvent(_, _) => 1
    case IntentEvent(_, _) => 2
    case CreatedEvent(_, _) => 3
    case DispatchedEvent(_, _) => 4
    case ReceiptEvent(_, _) => 5
    case CleanupEvent(_) => 6
    case TerminalEvent(_) => 7
    case ClosedEvent(_, _, _, _, _) => 8
  }

  /** recordEffectId: the approval record carries none. */
  function EffectOf(e: Event): Option<Id> {
    match e
    case PreparedEvent(_, effectId) => Some(effectId)
    case ConsumedEvent(_, _) => None
    case IntentEvent(_, effectId) => Some(effectId)
    case CreatedEvent(_, effectId) => Some(effectId)
    case DispatchedEvent(_, effectId) => Some(effectId)
    case ReceiptEvent(receipt, _) => Some(receipt.effectId)
    case CleanupEvent(cleanup) => Some(cleanup.effectId)
    case TerminalEvent(result) => Some(result.effectId)
    case ClosedEvent(_, _, effectId, _, _) => Some(effectId)
  }

  // ----- which record sequences are valid -----

  /** What a session is about; fixed by its first record. */
  datatype Identity = Identity(probeId: Id, effectId: Id, actionDigest: Id, actionId: Id)
  datatype Scan = Idle | Active(next: nat, identity: Identity) | Invalid

  predicate ClosureAllowed(e: Event, next: nat, identity: Identity)
    requires e.ClosedEvent?
  {
    && ((next == 1 && e.last == ActionPrepared && e.reason == ApprovalNotConsumed)
        || (next == 2 && e.last == ApprovalConsumed && e.reason == PreCreateAbsent)
        || (next == 3 && e.last == EffectIntent && e.reason == PreCreateAbsent))
    && e.actionDigest == identity.actionDigest && e.actionId == identity.actionId
  }

  function Step(s: Scan, r: Record): Scan {
    match s
    case Invalid => Invalid
    case Idle =>
      if r.event.PreparedEvent?
      then Active(1, Identity(r.probeId, r.event.effectId, r.event.action.digest, r.event.action.actionId))
      else Invalid
    case Active(next, identity) =>
      if r.probeId != identity.probeId then Invalid
      else if EffectOf(r.event).Some? && EffectOf(r.event).value != identity.effectId then Invalid
      else if r.event.ClosedEvent? then if ClosureAllowed(r.event, next, identity) then Idle else Invalid
      else if Kind(r.event) != next then Invalid
      else if next + 1 == 8 then Idle
      else Active(next + 1, identity)
  }

  function ScanOf(records: seq<Record>): Scan {
    if records == [] then Idle else Step(ScanOf(records[..|records| - 1]), records[|records| - 1])
  }

  predicate Numbered(records: seq<Record>) {
    forall i :: 0 <= i < |records| ==> records[i].sequence == i + 1
  }

  predicate DistinctEvents(records: seq<Record>) {
    forall i, j :: 0 <= i < j < |records| ==> records[i].eventId != records[j].eventId
  }

  predicate Valid(records: seq<Record>) {
    Numbered(records) && DistinctEvents(records) && ScanOf(records) != Invalid
  }

  /** The validation loop: the next expected position, the active identity, and the ids seen so far. */
  method ValidateSequence(records: seq<Record>) returns (ok: bool)
    ensures ok <==> Valid(records)
  {
    var expectedIndex := 0;
    var active := Identity(0, 0, 0, 0);
    var eventIds: set<Id> := {};
    for index := 0 to |records|
      invariant expectedIndex < 8 && Numbered(records[..index]) && DistinctEvents(records[..index])
      invariant forall x :: x in eventIds <==> exists i :: 0 <= i < index && records[i].eventId == x
      invariant ScanOf(records[..index]) == if expectedIndex == 0 then Idle else Active(expectedIndex, active)
    {
      var record := records[index];
      assert records[..index + 1][..index] == records[..index];
      if record.sequence != index + 1 || record.eventId in eventIds {
        return false;
      }
      eventIds := eventIds + {record.eventId};
      if expectedIndex == 0 {
        if !record.event.PreparedEvent? {
          ScanStaysInvalid(records, index + 1);
          return false;
        }
        active := Identity(record.probeId, record.event.effectId, record.event.action.digest, record.event.action.actionId);
      }
      var effectId := EffectOf(record.event);
      if record.probeId != active.probeId || (effectId.Some? && effectId.value != active.effectId) {
        ScanStaysInvalid(records, index + 1);
        return false;
      }
      if record.event.ClosedEvent? {
        if !ClosureAllowed(record.event, expectedIndex, active) {
          ScanStaysInvalid(records, index + 1);
          return false;
        }
        expectedIndex := 0;
      } else {
        if Kind(record.event) != expectedIndex {
          ScanStaysInvalid(records, index + 1);
          return false;
        }
        expectedIndex := if expectedIndex + 1 == 8 then 0 else expectedIndex + 1;
      }
    }
    assert records[..|records|] == records;
    return true;
  }

  lemma {:induction false} ScanStaysInvalid(records: seq<Record>, n: nat)
    requires n <= |records| && ScanOf(records[..n]) == Invalid
    ensures ScanOf(records) == Invalid
    decreases |records|
  {
    if n < |records| {
      assert records[..|records| - 1][..n] == records[..n];
      ScanStaysInvalid(records[..|records| - 1], n);
    } else {
      assert records[..n] == records;
    }
  }

  /** Every prefix of a valid journal is valid. */
  lemma PrefixValid(records: seq<Record>, n: nat)
    requires n <= |records| && Valid(records)
    ensures Valid(records[..n])
  {
    if ScanOf(records[..n]) == Invalid {
      ScanStaysInvalid(records, n);
    }
  }

  /** Whenever a session begins, every earlier session is resolved. */
  lemma SessionBeginsResolved(records: seq<Record>, p: nat)
    requires Valid(records) && p < |records| && records[p].event.PreparedEvent?
    ensures ScanOf(records[..p]) == Idle
  {
    PrefixValid(records, p + 1);
    assert records[..p + 1][..p] == records[..p];
    if ScanOf(records[..p]).Active? {
      ActiveNext(records[..p]);
    }
  }

  lemma {:induction false} ActiveNext(records: seq<Record>)
    requires ScanOf(records).Active?
    ensures 1 <= ScanOf(records).next < 8
  {
    if records != [] && ScanOf(records[..|records| - 1]).Active? {
      ActiveNext(records[..|records| - 1]);
    }
  }

  // ----- the last session -----

  function LastPrepared(records: seq<Record>): (at: int)
    ensures -1 <= at < |records|
    ensures at >= 0 ==> records[at].event.PreparedEvent?
    ensures forall i :: at < i < |records| ==> !records[i].event.PreparedEvent?
  {
    if records == [] then -1
    else if records[|records| - 1].event.PreparedEvent? then |records| - 1
    else LastPrepared(records[..|records| - 1])
  }

  /** records[start..start + n] are the first n kinds in order, all about one identity. */
  ghost predicate InSession(records: seq<Record>, start: int, n: nat, identity: Identity) {
    && 0 <= start && 1 <= n && start + n <= |records|
    && (forall i :: start <= i < start + n ==>
          Kind(records[i].event) == i - start && records[i].probeId == identity.probeId
          && (EffectOf(records[i].event).Some? ==> EffectOf(records[i].event).value == identity.effectId))
    && records[start].event.action.digest == identity.actionDigest
    && records[start].event.action.actionId == identity.actionId
  }

  /** What the last session of a valid journal looks like: unresolved, exactly the first kinds in
      order; resolved, all eight kinds or at most three of them and a closure. */
  ghost predicate SessionShape(records: seq<Record>, s: Scan, start: int) {
    match s
    case Invalid => true
    case Active(next, identity) => start == |records| - next && InSession(records, start, next, identity)
    case Idle =>
      records == [] ||
      (var last := records[|records| - 1].event;
       (last.TerminalEvent? && start == |records| - 8) || (last.ClosedEvent? && |records| - 4 <= start <= |records| - 2))
  }

  lemma {:induction false} LastSession(records: seq<Record>)
    requires ScanOf(records) != Invalid
    ensures SessionShape(records, ScanOf(records), LastPrepared(records))
    ensures records != [] ==> LastPrepared(records) >= 0
  {
    if records != [] {
      var front, r := records[..|records| - 1], records[|records| - 1];
      LastSession(front);
      LastSessionStep(front, r);
      assert front + [r] == records;
    }
  }

  lemma LastSessionStep(front: seq<Record>, r: Record)
    requires ScanOf(front) != Invalid && Step(ScanOf(front), r) != Invalid
    requires SessionShape(front, ScanOf(front), LastPrepared(front))
    ensures SessionShape(front + [r], Step(ScanOf(front), r), LastPrepared(front + [r]))
    ensures LastPrepared(front + [r]) >= 0
  {
    var records := front + [r];
    assert records[..|records| - 1] == front;
    if r.event.PreparedEvent? {
      assert ScanOf(front) == Idle;
    } else {
      assert LastPrepared(records) == LastPrepared(front);
    }
  }

  // ----- the projection -----

  datatype Projection =
    | Empty
    | Session(action: Action, effectId: Id, probeId: Id, last: Event, receipt: Option<Receipt>,
              draft: Option<Draft>, cleanup: Option<Cleanup>, resolved: bool)

  function FindReceipt(session: seq<Record>): Option<Event> {
    if session == [] then None
    else if session[0].event.ReceiptEvent? then Some(session[0].event)
    else FindReceipt(session[1..])
  }

  function FindCleanup(session: seq<Record>): Option<Event> {
    if session == [] then None
    else if session[0].event.CleanupEvent? then Some(session[0].event)
    else FindCleanup(session[1..])
  }

  function Project(records: seq<Record>): Projection
    requires Valid(records)
  {
    if records == [] then Empty
    else
      LastSession(records);
      var session := records[LastPrepared(records)..];
      var prepared, last := session[0].event, session[|session| - 1].event;
      var receipt, cleanup := FindReceipt(session), FindCleanup(session);
      Session(prepared.action, prepared.effectId, session[0].probeId, last,
              if receipt.Some? && receipt.value.ReceiptEvent? then Some(receipt.value.receipt) else None,
              if receipt.Some? && receipt.value.ReceiptEvent? then Some(receipt.value.draft) else None,
              if cleanup.Some? && cleanup.value.CleanupEvent? then Some(cleanup.value.cleanup) else None,
              last.TerminalEvent? || last.ClosedEvent?)
  }

  lemma {:induction false} FindReceiptAt(session: seq<Record>, k: nat)
    requires k < |session| && session[k].event.ReceiptEvent?
    requires forall i :: 0 <= i < k ==> !session[i].event.ReceiptEvent?
    ensures FindReceipt(session) == Some(session[k].event)
  {
    if k > 0 { FindReceiptAt(session[1..], k - 1); }
  }

  lemma {:induction false} FindCleanupAt(session: seq<Record>, k: nat)
    requires k < |session| && session[k].event.CleanupEvent?
    requires forall i :: 0 <= i < k ==> !session[i].event.CleanupEvent?
    ensures FindCleanup(session) == Some(session[k].event)
  {
    if k > 0 { FindCleanupAt(session[1..], k - 1); }
  }

  /** What the projection reads off an unresolved session the validator is in the middle of. */
  ghost predicate Mirrors(p: Projection, records: seq<Record>, next: nat, identity: Identity)
    requires 1 <= next <= |records|
  {
    var n := |records|;
    && p.Session? && p.last == records[n - 1].event && Kind(p.last) == next - 1
    && p.probeId == identity.probeId && p.effectId == identity.effectId
    && p.action.digest == identity.actionDigest && p.action.actionId == identity.actionId
    && (next == 6 ==> p.last.ReceiptEvent? && p.receipt == Some(p.last.receipt) && p.draft == Some(p.last.draft))
    && (next == 7 ==> records[n - 2].event.ReceiptEvent? && p.receipt == Some(records[n - 2].event.receipt)
                      && p.draft == Some(records[n - 2].event.draft)
                      && p.last.CleanupEvent? && p.cleanup == Some(p.last.cleanup))
  }

  /** The projection and the validator agree: unresolved exactly while the validator expects another
      record, with the identity, last step, receipt and cleanup of that one session. */
  lemma ProjectionAgrees(records: seq<Record>)
    requires Valid(records) && records != []
    ensures Project(records).Session? && (Project(records).resolved <==> ScanOf(records) == Idle)
    ensures ScanOf(records).Active? ==>
              1 <= ScanOf(records).next <= |records| && ScanOf(records).next < 8
              && Mirrors(Project(records), records, ScanOf(records).next, ScanOf(records).identity)
  {
    hide Mirrors, InSession;
    LastSession(records);
    if ScanOf(records).Active? {
      ActiveNext(records);
      ProjectionMirrors(records, LastPrepared(records), ScanOf(records).next, ScanOf(records).identity);
    }
  }

  lemma ProjectionMirrors(records: seq<Record>, start: nat, next: nat, identity: Identity)
    requires Valid(records) && start == LastPrepared(records) && next < 8
    requires InSession(records, start, next, identity) && start + next == |records|
    ensures Mirrors(Project(records), records, next, identity) && !Project(records).resolved
  {
    var session := records[start..];
    assert session[0] == records[start] && session[|session| - 1] == records[|records| - 1];
    assert Kind(records[start].event) == 0 && Kind(records[|records| - 1].event) == next - 1;
    ProjectionOf(records, start, next, identity);
  }

  lemma ProjectionOf(records: seq<Record>, start: nat, next: nat, identity: Identity)
    requires InSession(records, start, next, identity) && start + next == |records|
    ensures var session := records[start..];
            && (next == 6 ==> records[|records| - 1].event.ReceiptEvent?
                              && FindReceipt(session) == Some(records[|records| - 1].event))
            && (next == 7 ==> records[|records| - 2].event.ReceiptEvent? && records[|records| - 1].event.CleanupEvent?
                              && FindReceipt(session) == Some(records[|records| - 2].event)
                              && FindCleanup(session) == Some(records[|records| - 1].event))
  {
    var session := records[start..];
    assert forall i :: 0 <= i < next ==> session[i] == records[start + i];
    if next == 6 || next == 7 { FindReceiptAt(session, 5); }
    if next == 7 { FindCleanupAt(session, 6); }
  }
}
