/** Executing and reconciling an anchor edit on its file, over any interruptions and retries
    (anchor-edit.ts, safe-actuation-host.ts, runtime.ts). */
module AnchorEditFile {
  import opened Utf16
  import opened Results
  import opened Anchors

  type Digest = nat
  type Bytes = seq<bv8>

  datatype Executed = EditCompleted | EditFailed
  datatype Reconciled = AlreadyCompleted | NotStartedYet | OutcomeUnknown

  ghost predicate Injective(sha: Bytes -> Digest) {
    forall a, b :: sha(a) == sha(b) ==> a == b
  }

  /** One approved action, its target file and its temporary file. Nothing else writes them. `reliable` on a
      method asks for the case where every file operation does what it is told. */
  class EditWorkspace {
    var target: Bytes
    var temporary: Option<Bytes>
    /** How often a rename has replaced the target. */
    ghost var renames: nat
    /** The completion is in the journal, or the run has been blocked. */
    var completed: bool
    var blocked: bool
    ghost const base: Bytes
    ghost const desired: Bytes
    const replacements: seq<Replacement>
    const baseByteLength: nat
    const baseDigest: Digest
    const desiredByteLength: nat
    const desiredDigest: Digest
    const decode: Bytes -> Text
    const encode: Text -> Bytes
    const sha: Bytes -> Digest

    /** The action was approved for the file as it is now. */
    constructor (target: Bytes, replacements: seq<Replacement>, decode: Bytes -> Text, encode: Text -> Bytes, sha: Bytes -> Digest)
      requires DesiredTextOf(decode(target), replacements).Ok? && Injective(sha)
      ensures Valid() && this.target == base == target && temporary.None? && !completed && !blocked
      ensures desired == encode(DesiredTextOf(decode(target), replacements).value)
    {
      var text := DesiredText(decode(target), replacements);
      var result := encode(text.value);
      this.target, temporary, renames, completed, blocked := target, None, 0, false, false;
      base, baseByteLength, baseDigest := target, |target|, sha(target);
      desired, desiredByteLength, desiredDigest := result, |result|, sha(result);
      this.replacements, this.decode, this.encode, this.sha := replacements, decode, encode, sha;
    }

    ghost predicate Approved() {
      && Injective(sha) && baseDigest == sha(base) && desiredDigest == sha(desired)
      && baseByteLength == |base| && desiredByteLength == |desired|
      && DesiredTextOf(decode(base), replacements).Ok? && desired == encode(DesiredTextOf(decode(base), replacements).value)
    }

    /** The target is the base or the result, replaced at most once, and completion was recorded only for the result. */
    ghost predicate Valid()
      reads this
    {
      && Approved() && (target == base || target == desired)
      && (base != desired ==> renames == if target == desired then 1 else 0)
      && (completed ==> target == desired)
    }

    method ReadTarget(reliable: bool) returns (bytes: Option<Bytes>)
      ensures bytes.Some? ==> bytes.value == target
      ensures reliable ==> bytes.Some?
    {
      var readable := *;
      bytes := if reliable || readable then Some(target) else None;
    }

    /** `open(temporary, "wx")`, write and sync; a failure leaves whatever was written. */
    method WriteTemporary(content: Bytes, reliable: bool) returns (ok: bool)
      modifies this`temporary
      ensures old(temporary).Some? ==> !ok && temporary == old(temporary)
      ensures ok ==> temporary == Some(content)
      ensures reliable && old(temporary).None? ==> ok
    {
      if temporary.Some? { return false; }
      var created, written, partial: Bytes := *, *, *;
      ok := false;
      if reliable || written {
        temporary, ok := Some(content), true;
      } else if created {
        temporary := Some(partial);
      }
    }

    /** `rename(temporary, target)`: it may take effect without saying so. */
    method Rename(reliable: bool) returns (ok: bool)
      requires temporary.Some?
      modifies this`target, this`temporary, this`renames
      ensures (target == old(target) && temporary == old(temporary) && renames == old(renames) && !ok)
              || (target == old(temporary).value && temporary.None? && renames == old(renames) + 1)
      ensures reliable ==> ok
    {
      var effect, said := *, *;
      ok := false;
      if reliable || effect {
        target, temporary, renames := temporary.value, None, renames + 1;
        ok := reliable || said;
      }
    }

    /** The `finally` block's unlink, which the process may not live to make. */
    method Unlink(reliable: bool)
      modifies this`temporary
      ensures temporary == old(temporary) || temporary.None?
    {
      var gone := *;
      if reliable || gone { temporary := None; }
    }

    /** AnchorEditService.execute. The target is only ever replaced while it is the base, by the result. A temporary
        file left behind by an interrupted execution makes every later one fail. */
    method Execute(reliable: bool) returns (r: Executed)
      requires Valid()
      modifies this`target, this`temporary, this`renames
      ensures Valid() && (r.EditCompleted? ==> target == desired)
      ensures target != old(target) ==> old(target) == base && target == desired && old(temporary).None?
      ensures old(temporary).Some? ==> r.EditFailed? && temporary == old(temporary)
      ensures reliable ==> (r.EditCompleted? <==> old(target) == base && old(temporary).None?)
      ensures reliable && r.EditCompleted? ==> temporary.None?
    {
      r := EditFailed;
      var allowed := *;
      if !reliable && !allowed { return; }
      var bytes := ReadTarget(reliable);
      if bytes.None? || |bytes.value| != baseByteLength || sha(bytes.value) != baseDigest { return; }
      var text := DesiredText(decode(bytes.value), replacements);
      if text.Err? || |encode(text.value)| != desiredByteLength || sha(encode(text.value)) != desiredDigest { return; }
      var ok := WriteTemporary(encode(text.value), reliable);
      if !ok { return; }
      bytes := ReadTarget(reliable);
      if bytes.None? || sha(bytes.value) != baseDigest || |bytes.value| != baseByteLength {
        Unlink(reliable);
        return;
      }
      ok := Rename(reliable);
      if !ok {
        Unlink(reliable);
        return;
      }
      bytes := ReadTarget(reliable);
      if bytes.Some? && sha(bytes.value) == desiredDigest && |bytes.value| == desiredByteLength { r := EditCompleted; }
    }

    /** AnchorEditService.reconcile. */
    method Reconcile(reliable: bool) returns (r: Reconciled)
      requires Valid()
      ensures r.AlreadyCompleted? ==> target == desired
      ensures r.NotStartedYet? ==> target == base && base != desired
      ensures reliable ==> !r.OutcomeUnknown?
    {
      var bytes := ReadTarget(reliable);
      r := if bytes.None? then OutcomeUnknown
           else if |bytes.value| == desiredByteLength && sha(bytes.value) == desiredDigest then AlreadyCompleted
           else if |bytes.value| == baseByteLength && sha(bytes.value) == baseDigest then NotStartedYet
           else OutcomeUnknown;
    }

    /** Settling the in-flight edit: reconcile first, execute only what has not started, and commit what is known.
        A commit may be lost. */
    method Settle(reliable: bool)
      requires Valid() && !completed && !blocked
      modifies this`target, this`temporary, this`renames, this`completed, this`blocked
      ensures Valid() && !(completed && blocked)
      ensures reliable ==> completed != blocked
      ensures reliable ==> (completed <==> old(target) == desired || old(temporary).None?)
    {
      var kept := *;
      var reconciled := Reconcile(reliable);
      match reconciled {
        case AlreadyCompleted => completed := reliable || kept;
        case OutcomeUnknown => blocked := reliable || kept;
        case NotStartedYet =>
          var r := Execute(reliable);
          if reliable || kept {
            completed, blocked := r.EditCompleted?, r.EditFailed?;
          }
      }
    }

    /** Any number of attempts to settle, each interrupted anywhere. */
    method AnyHistory(attempts: nat)
      requires Valid()
      modifies this`target, this`temporary, this`renames, this`completed, this`blocked
      ensures Valid()
      ensures target == base || target == desired
      ensures base != desired ==> renames <= 1
      ensures completed ==> target == desired
    {
      for k := 0 to attempts
        invariant Valid()
      {
        if completed || blocked { return; }
        var reliable := *;
        Settle(reliable);
      }
    }
  }
}
