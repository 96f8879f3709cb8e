# Verified model of Eden's coding runtime

Dafny models, with proofs, of the boundaries at which Eden's coding runtime promises that what happens is what was
approved, happens once, and survives interruption. `dafny verify dfyconfig.toml` checks everything.

## What is modelled

**Anchor edits and their review patch** (`Anchors`, `Substitution`, `ReviewAnchors`, `Lines`, `PatchWindows`,
`PatchHunks`, `PatchAlignment`, `PatchExactness`, `PatchPrinting`, `PatchText`, `PatchReader`, `PatchRoundTrip`,
`PatchLimits`, `EdenPatch`, `AnchorEditFile`). Text is a sequence of UTF-16 code units. Two separate implementations turn unique anchors into the
same text, which is the simultaneous substitution of all replacements. The printed patch is followed from spans
through binary-searched line windows, merging and trimming to text, and reading that text and applying it are defined
independently of how it is made. The edit's file is followed through interrupted executions and retries.

**Command output** (`Utf8`, `OutputChunks`): bytes decoded from UTF-8 (section 3 of RFC 3629) without a leading byte
order mark, cut into pieces of at most 8,192 bytes, encoded again, and decoded chunk by chunk by the kernel.

**The canonical JSON printer** (`CanonicalJson`, `JsonInjective`, `JsonReader`): its text determines the value up to
key order, and a reader of JSON text (section 2 of RFC 8259, but for white space) reads it back. Numbers are represented by their ECMAScript text.
The key order is that of section 3.2.3 of RFC 8785. The same function stands in
`docker-diagnostic-probe-runner.ts:196-205` and `repository-check-snapshot.ts:123-132`.

**The Docker diagnostic probe** (`ProbeJournal`, `ProbeSessions`, `ProbeSafety`, `ProbeRunner`, `ProbeTransparency`): the eight-record
journal, the executor and the recovery routine over a port whose every call may fail with or without taking effect.
Each error return is a stop; recovery may follow. A port call has no delayed effect after it returns, effect ids are
new for each execution, and an effect's container name is its own.

**The event-sourced run** (`Kernel`, `KernelFacts`, `RunAccounts`, `RuntimeJournal`, `EngineFacts`, `RuntimeEngine`,
`CommandOutcome`, `RunLimits`, `InputLedger`, `LedgerView`, `Reservations`, `ReservedSteps`, `StepBudget`,
`CommandReruns`, `Projection`, `ProjectedEvents`). `Kernel` is the reducer and `decide`
for a provider run whose model may read the repository and propose commands, with the real guards, budgets and
revision numbers. The engine is a class whose fields are compared with the journal file after every commit; inputs of
the other lane may be committed between any two of its steps, a commit may be lost or be durable without saying so,
and the engine may be reopened at any point. The world outside (native runs, provider calls and answers, receipts)
survives reopening. Byte sizes, times, event ids and attempt ids are arbitrary; the journal and the kernel refuse
repeated ones.

**The repository check** (`StagedTree`, `RepositoryCheck`): the validator of the staged tree and the runner around the
write-once receipt.

On a method, `reliable` asks for the case in which storage and port do what they are told and say so; the safety
clauses hold without it. Digests are arbitrary functions, injective where a property needs that.

## Where the code and its promises differ

- The review patch is not exact for every approved edit; it is exactly when `Aligned` holds. It fails when the last
  replacement gains or loses a final newline and more than three lines follow it (deleting a whole line does), when
  the first one deletes the rest of a file beyond its fourth line, where the line search clamps, and when two
  neighbouring windows shift by different amounts (`PatchExactness.RecoversIffAligned`, `PatchLimits`). The contract
  allows such edits (`packages/contracts/src/safe-actuation.ts:42-46` bounds only the old text from below).
- An empty range prints `+1,0`, where POSIX.1-2017 `diff` would print `+0,0`; it occurs exactly when the desired file
  is empty (`PatchText.EmptyRangeIff`). `Apply` reads headers as this code prints them.
- A repository path may hold a line feed (`packages/contracts/src/protocol.ts:355-374`). The printed patch is read as one
  for that path exactly when it holds none (`EdenPatch.CreateEdenPatch`).
- A command reports the bytes it received, while the kernel counts those of the chunks it decoded. A chunk that ends
  inside a surrogate pair makes the kernel count two more, a byte order mark at the start of the output or of a chunk
  makes it count three less; where these do not balance the completion is rejected. And the record schema refuses a
  ninth chunk of a stream, which the 65,536 bytes a process may print do not rule out: 65,522 bytes never make one,
  21,841 three-byte characters do. In either case the outcome of a command that ran is lost
  (`CommandOutcome.OutcomeRecordedIff`, `CommandOutcome.ShortOutputFits`, `CommandOutcome.NinthChunkLosesOutcome`,
  `OutputChunks.CountsAgreeIff`).
- An effect is meant to run at most once. The effect id of a command is made from the provider's tool call id, which
  no guard compares with earlier ones. Each call id that is proposed once runs at most once
  (`RuntimeEngine.RuntimeEngine.AnyHistory`); one that was dispatched before can be approved and dispatched again
  under the same effect id whenever the model repeats it (`CommandReruns.CallDispatchesAgain`,
  `CommandReruns.CallRunsTwice`).
- An input accepted while a command is being prepared moves the revision, so the proposal is rejected and the run can
  only be blocked (`RunLimits.ProposalLegalIff`, `RunLimits.RejectedPreparationIsStuck`).
- An interrupted or unknown attempt drops the run's coding budget for good. A journal that had used the budget's
  larger ceiling then no longer opens (`RunLimits.InterruptionStopsReopening`, `RuntimeEngine.RuntimeEngine.Open`).
- The repository's design promises each accepted input a model step of its own. That enough steps are left for all of
  them is kept through a run exactly while every record finds room (`StepBudget.EnoughIffRoom`), and is exactly what a
  model that only answers needs to be given every input (`StepBudget.AnswersServeEveryInput`). It fails because an
  input may reserve the step in progress (`StepBudget.StepInProgressReserved`) and because inputs that arrive during
  an attempt are not counted when that attempt is offered tools (`Reservations.TwoInputsOverrun`).
- The numbers of the steps that pending inputs reserve are distinct throughout a run exactly when every acceptance
  finds its number free (`ReservedSteps.DistinctIffFree`). They count down, one for each input, exactly when every
  delivery takes the input accepted last; an acceptance right after any other delivery reserves a step that is taken
  (`ReservedSteps.StaircaseIffNewestFirst`, `ReservedSteps.DeliveryThenAcceptance`,
  `Reservations.SameStepReservedTwice`).
- It also promises closed inputs to be announced. Endings by a model step, a read or a command close inputs silently
  (`Projection.ClosuresAnnouncedIff`), and an answer after a silent tool call is attributed to an earlier attempt
  (`Projection.AnswerAttributedIff`).
- A probe container that ended with an undecodable log leaves its session unresolved for ever, which blocks every
  later probe (`ProbeRunner.ProbeHost.Recover`).
- A repository check never completes if its report is not byte for byte its printed form, does not fit its receipt, or
  has a receipt that was torn by a crash; nor if the runner's own decoder accepts a report that the product's result
  schema refuses, such as an exit code above 255 or an end time that is not a date, which is found out only after the
  receipt is durable and container and staging are gone (`RepositoryCheck.CheckHost.Recover`,
  `RepositoryCheck.CheckHost.FinalizeReceipt`).
- An anchor edit interrupted between creating and renaming its temporary file can never be executed again
  (`AnchorEditFile.EditWorkspace.Execute`).
- Marking a dispatch returns silently when the mark is already set
  (`RuntimeEngine.RuntimeEngine.MarkDispatchStarted`), so at-most-once also rests on the client settling one effect at
  a time (`packages/coding-runtime/src/agent-client.ts:425-437`); the model has one driver, as the code does.

## Model

| member | source | states |
|---|---|---|
| Anchors.AnchorProbes | packages/coding-runtime/src/anchor-edit.ts:134-142 | The two `indexOf` probes accept an anchor exactly when it occurs once in the text (an empty anchor never passes), and the first probe finds that occurrence. |
| Anchors.LocateSpans | packages/coding-runtime/src/anchor-edit.ts:134-148 | Succeeds exactly when every anchor is unique, with one span per replacement. |
| Anchors.NeighboursChain | packages/coding-runtime/src/anchor-edit.ts:149-156 | Checking neighbours after sorting is enough: any two spans, not only neighbours, are disjoint and in order. |
| Anchors.Splice | packages/coding-runtime/src/anchor-edit.ts:157-160 | The right-to-left splice equals one left-to-right substitution of the ordered spans. |
| Anchors.DesiredText | packages/coding-runtime/src/anchor-edit.ts:131-165 | Every result of desiredText: which of the three errors, or the substituted text, which differs from the base. |
| Substitution.SpliceIsSimultaneous | packages/coding-runtime/src/anchor-edit.ts:131-165 | A successful edit is the simultaneous replacement, read left to right from the base alone, of every old text by its new text. |
| Substitution.OrderIndependent | packages/coding-runtime/src/anchor-edit.ts:131-165 | Permuting the replacement list changes neither the error nor the text. |
| ReviewAnchors.ResolveAnchors | packages/coding-runtime/src/git-review.ts:146-178 | Which error, or the ordered spans with their desired offsets, as a function of the base and the replacements. |
| ReviewAnchors.ResolvedEdits | packages/coding-runtime/src/git-review.ts:164-178 | With the running delta, each desired span holds exactly its new text in the applied text, and everything between spans is copied unchanged. |
| ReviewAnchors.ApplyAnchors | packages/coding-runtime/src/git-review.ts:180-186 | The reviewer's text, for every input, including the error cases. |
| ReviewAnchors.EditorAndReviewerAgree | packages/coding-runtime/src/anchor-edit.ts:131-165 | Editor and reviewer succeed on the same inputs with the same text and fail for the same reasons; the editor alone also rejects an edit that changes nothing. |
| Lines.LinesRejoin | packages/coding-runtime/src/git-review.ts:188-190 | The lines concatenate to the text, none is empty, and a newline occurs only at the end of a line and at every line's end but the last. |
| Lines.LineStarts | packages/coding-runtime/src/git-review.ts:192-196 | Entry k is the total length of the first k lines. |
| Lines.LineIndex | packages/coding-runtime/src/git-review.ts:198-207 | The binary search returns the last start at or before the offset, never the final entry. |
| Lines.LineAt | packages/coding-runtime/src/git-review.ts:198-207 | With a text's own line starts, the search returns the number of newlines before the offset, clamped to the last line at the end of the text. |
| Lines.SplitAtBoundary | packages/coding-runtime/src/git-review.ts:188-190 | At the start of a line the text's lines are the lines before and the lines after, and as many come before as newlines do. |
| PatchWindows.MergeWindows | packages/coding-runtime/src/git-review.ts:222-237 | The loop's merged windows are those of the recursive merge. |
| PatchWindows.MergedGroups | packages/coding-runtime/src/git-review.ts:222-237 | Each merged window is the hull of one consecutive group of windows, and windows of different groups do not touch in either file. |
| PatchHunks.SharedPrefix | packages/coding-runtime/src/git-review.ts:315-318 | The longest common prefix of the two ranges. |
| PatchHunks.SharedSuffix | packages/coding-runtime/src/git-review.ts:319-326 | The longest common suffix behind that prefix. |
| PatchHunks.BuildHunk | packages/coding-runtime/src/git-review.ts:312-338 | A hunk's header counts and starts describe both windows; context and removed lines rebuild the base window, context and added lines the desired one, and no line shared at either end is shown as changed. |
| PatchHunks.ApplyRecoversIffGapsMatch | packages/coding-runtime/src/git-review.ts:312-341 | Applying the hunks yields the desired lines exactly when the lines outside the windows are the same in both files. |
| EdenPatch.FindWindows | packages/coding-runtime/src/git-review.ts:295-311 | The windows computed by binary search are the clamped three-line contexts of the spans' true line numbers. |
| PatchExactness.ShiftedSlices | packages/coding-runtime/src/git-review.ts:303-309 | A run of lines equals its own slice shifted by at most one at either end exactly when both ends shift alike and the lines repeat. |
| PatchExactness.MiddleGap | packages/coding-runtime/src/git-review.ts:222-237 | The gap between two windows that were not merged is the same in both files exactly when the spans around it shift line numbers by the same amount (by nothing, unless every line between repeats). |
| PatchExactness.FirstGap | packages/coding-runtime/src/git-review.ts:198-207 | The lines before the first window agree unless the first span deletes the rest of a file beyond its fourth line, where the search clamps. |
| PatchExactness.LastGap | packages/coding-runtime/src/git-review.ts:303-309 | The lines after the last window agree exactly when both windows reach the end or the last span's texts agree on ending in a newline. |
| PatchExactness.RecoversIffAligned | packages/coding-runtime/src/git-review.ts:290-341 | The hunks, applied to the base lines, give exactly the desired lines if and only if the edit is aligned (`Aligned`), through every clamp and merge. |
| PatchExactness.AgreementSuffices | packages/coding-runtime/src/git-review.ts:290-341 | If every old and new text is non-empty and the two agree on ending in a newline, the patch is exact. |
| PatchLimits.NewlineLostFails | packages/coding-runtime/src/git-review.ts:303-309 | Every edit whose last replacement gains or loses a final newline with more than three whole lines after it has a patch that does not lead to the desired file. |
| PatchLimits.TruncationFails | packages/coding-runtime/src/git-review.ts:198-207 | Every edit whose first span deletes the rest of the file beyond the fourth line, leaving a final newline, has a wrong patch. |
| PatchLimits.DeletingFirstLineFails | packages/coding-runtime/src/git-review.ts:290-341 | An approved edit with a wrong patch: deleting line 1 of 5. |
| PatchLimits.DeletingLastLineFails | packages/coding-runtime/src/git-review.ts:290-341 | Another: deleting line 5 of 5. |
| PatchText.HunksTextDecides | packages/coding-runtime/src/git-review.ts:209-213 | The printed text of a list of hunks determines their header numbers and their lines with their marks, including the no-newline marker. |
| PatchText.PatchTextDecides | packages/coding-runtime/src/git-review.ts:331-341 | The emitted hunks consist of whole lines, and whatever whole-line hunks a reader takes their printed text for, those lead to the desired lines exactly when the edit is aligned. |
| PatchText.EmittedWhole | packages/coding-runtime/src/git-review.ts:312-338 | Every line of an emitted hunk is non-empty with a newline only at its end. |
| PatchText.EmptyRangeIff | packages/coding-runtime/src/git-review.ts:331-338 | No old range is empty; a new range is, and starts at line 1, exactly when the desired file is empty. |
| PatchRoundTrip.EditRead | packages/coding-runtime/src/git-review.ts:312-341 | What is printed of an edit is read by an independent reader (old lines on `-`, new lines on `+`, kept ones on a space, numbers by their value, the no-newline marker) as one file of these very hunks. |
| PatchRoundTrip.NewFileRead | packages/coding-runtime/src/git-review.ts:239-265 | What is printed of a new file is read as one that adds exactly its lines. |
| EdenPatch.CreateEdenPatch | packages/coding-runtime/src/git-review.ts:239-342 | Accepts an anchor edit exactly when both byte lengths, both digests and the anchors fit; otherwise which error. Reading the accepted text as a patch and applying it to the base lines gives the desired lines exactly when the edit is aligned; a new file's patch gives its lines from nothing. It is read as a patch for the operation's path exactly when that has no line feed, and then starts with the very header lines of an edit or of a new file of mode 100644. No accepted text is over the byte limit. |
| AnchorEditFile.EditWorkspace.Execute | packages/coding-runtime/src/anchor-edit.ts:328-418 | The target changes only from base to result. With a faithful file system it completes exactly when the target is the base and no temporary file is left over; a left-over one makes every later execution fail. |
| AnchorEditFile.EditWorkspace.Reconcile | packages/coding-runtime/src/anchor-edit.ts:442-462 | Completed only if the target is the result, not started only if it is the base; unknown only when the file cannot be read. |
| AnchorEditFile.EditWorkspace.Settle | packages/coding-runtime/src/runtime.ts:338-425 | Reconciling before executing: the completion is committed only for the result, and with a faithful file system exactly when the result was there or no temporary file was. |
| AnchorEditFile.EditWorkspace.AnyHistory | packages/coding-runtime/src/anchor-edit.ts:328-418 | Over any interrupted attempts the target is the base or the result, is replaced at most once, and a recorded completion means the result is there. |
| OutputChunks.Chunks | packages/coding-runtime/src/run-command.ts:113-130 | Terminates without reaching its throw and returns the pieces of the specification. |
| OutputChunks.PiecesFit | packages/coding-runtime/src/run-command.ts:113-130 | The pieces join to the content; each is non-empty, has at most 8,192 UTF-8 bytes, and could not take one more unit. |
| OutputChunks.BytesAcrossPieces | packages/coding-runtime/src/run-command.ts:113-130 | The pieces' byte lengths sum to the content's plus two for every cut inside a surrogate pair. |
| OutputChunks.BytesAddUpIff | packages/coding-runtime/src/run-command.ts:113-130 | They sum exactly if and only if no cut falls inside a pair. |
| OutputChunks.CutSplitsIff | packages/coding-runtime/src/run-command.ts:123-125 | A cut splits a pair exactly when the units before the pair take 8,189 bytes. |
| OutputChunks.PairAtTheLimitIsCut | packages/coding-runtime/src/run-command.ts:113-130 | 8,189 ASCII units followed by a pair: 8,193 bytes of content, 8,195 in pieces. |
| OutputChunks.PiecesTake | packages/coding-runtime/src/run-command.ts:113-130 | n pieces, n at least two, take at least 8,190 bytes for each but the last and three more. |
| OutputChunks.WidePieces | packages/coding-runtime/src/run-command.ts:113-130 | A text of three-byte characters is cut every 2,730 of them. |
| Utf8.DecodeEncode | packages/kernel/src/reducer.ts:263-272 | Text that is encoded and decoded again loses a leading U+FEFF and has its lone surrogates replaced, and nothing else. |
| Utf8.DecodedBytes | packages/coding-runtime/src/run-command.ts:356-363 | Accepted bytes are the encoding of the decoded text, which has no lone surrogate, and of the mark if there was one. |
| OutputChunks.CountsAgreeIff | packages/kernel/src/reducer.ts:1082-1093 | The bytes the kernel counts in the chunks of an output are the bytes received exactly when cut pairs and dropped marks balance; without marks, exactly when no pair is cut. |
| OutputChunks.LeadingMark | packages/coding-runtime/src/run-command.ts:359-362 | The bytes EF BB BF 68 69 give one chunk of two bytes and a report of five. |
| OutputChunks.MarkAtTheLimit | packages/kernel/src/reducer.ts:263-272 | 8,192 ASCII characters, U+FEFF and one more: no pair is cut, no leading mark, and the counts differ. |
| JsonInjective.PrintInjective | packages/coding-runtime/src/repository-check-compatibility.ts:41-50 | A printed value followed by anything that cannot continue it is uniquely decodable: the values are equal up to key order and so is what follows. |
| JsonInjective.SameTextIffEquivalent | packages/coding-runtime/src/repository-check-compatibility.ts:41-50 | Two JSON values print the same canonical text exactly when they are equal up to object key order. |
| JsonInjective.EscapedInjective | packages/coding-runtime/src/repository-check-compatibility.ts:48-49 | A quoted string, with its short and `\u` escapes and escaped lone surrogates, is uniquely decodable. |
| JsonInjective.CompatibilityMatches | packages/coding-runtime/src/repository-check-compatibility.ts:165-170 | Comparing canonical texts decides whether the approved and the observed Docker compatibility are equal. |
| JsonReader.PrintRead | packages/coding-runtime/src/repository-check-compatibility.ts:41-50 | A printed value, whatever follows it, is read back by an independent JSON reader as a value equal to it up to key order. |
| JsonReader.CanonicalTextIsJson | packages/coding-runtime/src/repository-check-compatibility.ts:41-50 | The canonical text is JSON to its end, for a value that equals the printed one up to key order and whose keys ascend by code unit in every object. |
| JsonReader.UnitsRead | packages/coding-runtime/src/repository-check-compatibility.ts:48-49 | A quoted string reads back as the very same units, through every escape and surrogate pair. |
| ProbeJournal.ValidateSequence | packages/coding-runtime/src/docker-diagnostic-probe-journal.ts:334-403 | Accepts exactly the journals with dense sequence numbers, distinct event ids and sessions in the eight-record order or closed where a closure is allowed. |
| ProbeSessions.ValidIffGrammatical | packages/coding-runtime/src/docker-diagnostic-probe-journal.ts:334-403 | A journal is valid exactly when it is numbered from one, its events are distinct, and it is one whole session after the other, each of the eight records in order about one probe and effect, or closed after its preparation, approval or intent for the reason that goes with it, with perhaps one unfinished session at the end. |
| ProbeJournal.PrefixValid | packages/coding-runtime/src/docker-diagnostic-probe-journal.ts:334-403 | Every prefix of a valid journal is valid. |
| ProbeJournal.SessionBeginsResolved | packages/coding-runtime/src/docker-diagnostic-probe-journal.ts:334-403 | No session begins while an earlier one is unresolved. |
| ProbeJournal.LastSession | packages/coding-runtime/src/docker-diagnostic-probe-journal.ts:334-403 | An unresolved session is exactly the first kinds of record in order about one identity, and only the last session can be one. |
| ProbeJournal.ProjectionAgrees | packages/coding-runtime/src/docker-diagnostic-probe-journal.ts:485-548 | The projection says unresolved exactly while the validator expects another record, with that session's identity, last step, receipt, draft and cleanup. |
| ProbeSafety.AppendSafe | packages/coding-runtime/src/docker-diagnostic-probe-journal.ts:657-699 | A record the validator expects, about a container that is far enough, keeps every safety property of journal and containers. |
| ProbeSafety.BoxChangeSafe | packages/coding-runtime/src/docker-diagnostic-probe-runner.ts:459-526 | A change to one container that respects the records written so far keeps them too. |
| ProbeRunner.ProbeHost.Append | packages/coding-runtime/src/docker-diagnostic-probe-journal.ts:657-699 | An append the executor or recovery makes is never rejected by the validator; the write may be lost, or durable without being acknowledged. |
| ProbeRunner.ProbeHost.StartContainer | packages/coding-runtime/src/docker-diagnostic-probe-runner.ts:512-526 | A container is started only after its dispatch record, and only when it has never been started. |
| ProbeRunner.ProbeHost.RemoveContainer | packages/coding-runtime/src/docker-diagnostic-probe-runner.ts:652-699 | Only an exited container whose receipt is durable is removed. |
| ProbeRunner.ProbeHost.Execute | packages/coding-runtime/src/docker-diagnostic-probe-runner.ts:327-779 | Does nothing while a session is unresolved; otherwise ends with the terminal record, whose result, receipt and cleanup name this action, probe and effect and one container, or stops in a safe state of its own session, never disturbing the container; with a faithful port reports exactly what the container's run did. |
| ProbeRunner.ProbeHost.CompleteRecovered | packages/coding-runtime/src/docker-diagnostic-probe-runner.ts:806-1089 | From a created, running or exited container. A finished call reports the rows of the run that ended; unless the removal failed, the outcome is timed-out exactly when its own wait timed out, cancelled exactly when that was aborted, and otherwise what exit code, memory kill and rows say. With a faithful port it ends with the terminal record exactly when the run's log decodes; an ended container whose log does not decode is left as it is. |
| ProbeRunner.ProbeHost.RecoverReceipt | packages/coding-runtime/src/docker-diagnostic-probe-runner.ts:1571-1662 | After a durable receipt the container is gone or is the receipt's own exited one and is removed; the result reports the receipt. |
| ProbeRunner.ProbeHost.CloseNotStarted | packages/coding-runtime/src/docker-diagnostic-probe-runner.ts:1292-1351 | A session is closed as not started only for a container that was never started. |
| ProbeRunner.ProbeHost.Recover | packages/coding-runtime/src/docker-diagnostic-probe-runner.ts:1274-1713 | Never moves a session backwards; reports the run and its own wait as above, about the session's own action, or the receipt that was durable; with a faithful port one call resolves every unresolved session whose log decodes (exactly those, from creation to receipt), and a stuck session stays unresolved for ever. |
| ProbeRunner.ProbeHost.ExecuteAndRecover | packages/coding-runtime/src/docker-diagnostic-probe-runner.ts:527-649 | An execution that stopped anywhere after the creation record, its wait cut short or not, and one recovery by a faithful port end the session with a result that reports the container's own run; an earlier stop ends so or is closed as not started. |
| ProbeRunner.AnyHistory | packages/coding-runtime/src/docker-diagnostic-probe-runner.ts:327-779 | Over any execute and recover calls stopped anywhere: started at most once and only after its dispatch record, removed only after its receipt, never started when closed as not started; the journal stays valid. |
| ProbeTransparency.InterruptionTransparent | packages/coding-runtime/src/docker-diagnostic-probe-runner.ts:1136-1147 | Two runs of one container, interrupted and recovered anywhere or not at all, end with the same outcome, observations and result digest, if no recovery gave up its own wait and stopped the container, and the removal succeeded. |
| ProbeTransparency.PassedMeansPassed | packages/coding-runtime/src/docker-diagnostic-probe-runner.ts:879-971 | Such a run ends as passed exactly when the container exited with 0, was not killed for memory, and every diagnostic row passed. |
| ProbeTransparency.ResultsAreTrue | packages/coding-runtime/src/docker-diagnostic-probe-runner.ts:879-971 | Every terminal result of any history, disturbed or not, whose removal succeeded is passed, failed or out of memory only if its container's run was just that. |
| KernelFacts.ReduceBlind | packages/kernel/src/reducer.ts:298-2295 | Overwriting the derived journal figures before or after a transition makes no other difference to it. |
| KernelFacts.ReduceLedger | packages/kernel/src/reducer.ts:516-602 | An accepted input stays in the ledger and never becomes pending again; at most 8 inputs, 16,384 bytes, one pending steering message and three pending queued ones, dense order, distinct ids. |
| KernelFacts.DeliverPending | packages/kernel/src/reducer.ts:564-602 | A delivery takes exactly that message out of the pending inputs and changes no byte count. |
| KernelFacts.ReduceAttempts | packages/kernel/src/reducer.ts:1528-1590 | Attempts are only added, by an attempt record with a new id, and the last one is observed once. |
| KernelFacts.ReduceFlight | packages/kernel/src/reducer.ts:773-979 | Only a request puts an effect in flight, undispatched; a dispatch record is for the effect in flight; nothing else replaces it or clears its mark. |
| KernelFacts.ReduceStaged | packages/kernel/src/reducer.ts:773-979 | The stage always tells what is in flight, and a stage that needs a call, an action, output or an open attempt has it. |
| RunAccounts.BudgetAccounts | packages/kernel/src/reducer.ts:1591-1730 | In any journal, while a run has its budget: steps used are the model's answers, calls charged are those requested or about to be, proposals likewise, output and content bytes are those reported, and none exceeds the grant (content if no read shows more than it declared). |
| RunAccounts.StepJudged | packages/kernel/src/reducer.ts:1591-1995 | What an observation leads to, from the budget's figures, the number and kind of calls, the text and the inputs that wait: blocked, refused, answered, onward, one call carried out, another attempt, or waiting without a budget. |
| RunAccounts.StagesFollow | packages/kernel/src/reducer.ts:358-515 | The stage and step before and after every other legal record. |
| RunAccounts.RunsEnd | packages/kernel/src/reducer.ts:564-602 | Nothing follows an ending; none leaves an input pending; an answered run delivered every input, and each outcome has the record that stands for it. |
| RunAccounts.DeliversNext | packages/kernel/src/reducer.ts:564-602 | A delivery takes the first pending steer, or without one the first pending input, which if queued needs a ready queue, and changes that input alone. |
| RunAccounts.Deliveries | packages/kernel/src/reducer.ts:564-602 | In any journal inputs of one mode are delivered in the order of their acceptance, and the queue is ready exactly when the model has completed an answer since the last delivery. |
| RuntimeJournal.WrittenPrefix | packages/coding-runtime/src/runtime.ts:209-251 | Every prefix of a journal the engine wrote is dense, replays, and is within its grant. |
| RuntimeJournal.StepLive | packages/coding-runtime/src/runtime.ts:89-112 | Replaying and then overwriting the usage equals overwriting after every step, and the grant check agrees. |
| RuntimeJournal.DispatchesRequestsApprovals | packages/kernel/src/reducer.ts:358-515 | In every replayable journal each dispatch of a command has its own request, each request its own approval and each approval its own proposal. |
| RuntimeJournal.AttemptsOnce | packages/kernel/src/reducer.ts:1528-1590 | In every replayable journal an attempt id is started at most once, observed at most once, and only after it was started. |
| RuntimeJournal.ReplayedState | packages/coding-runtime/src/replay.ts:20-36 | Every replayed state has a sound ledger, distinct attempts and a stage that tells what is in flight. |
| RuntimeEngine.ReplayRecords | packages/coding-runtime/src/replay.ts:20-36 | The loop computes the fold, or fails where some prefix is illegal. |
| RuntimeEngine.RuntimeEngine.Open | packages/coding-runtime/src/runtime.ts:148-189 | A journal the engine wrote always decodes and replays within its grant, so opening fails in two cases only: a torn record, or over 1,048,576 bytes with no coding budget. |
| RuntimeEngine.RuntimeEngine.Append | packages/coding-runtime/src/journal/file-journal.ts:386-438 | A refused, lost, torn, durable or silently durable write leaves a file at most one record ahead of the journal object, and a torn one accepts nothing more; with a faithful file it succeeds exactly when the record decodes against its schema, fits the limits and follows the journal, and the object is not behind the file. |
| EngineFacts.CommitLive | packages/coding-runtime/src/runtime.ts:209-251 | The state a commit computes is the replay of the longer journal with the derived usage overwritten. |
| RuntimeEngine.RuntimeEngine.Commit | packages/coding-runtime/src/runtime.ts:209-251 | Sequence, byte count, start time, last event id and state always equal those of the replayed journal; a failed commit changes none of them. With a faithful file every legal event that decodes is committed while file and grant have room, and the room left is told. |
| RuntimeEngine.RuntimeEngine.MarkDispatchStarted | packages/coding-runtime/src/runtime.ts:302-336 | Returns only with the mark set for the effect in flight, the first time only after its record is durable, which with a faithful file it always is; when the mark is already set it returns without a record. |
| RuntimeEngine.RuntimeEngine.ExecuteCommand | packages/coding-runtime/src/run-command.ts:306-333 | At most one native run, and only after a new dispatch record of that command. Whatever stops it, what is recorded is a beginning of: the dispatch, the pieces of stdout under stdout, the pieces of stderr under stderr. A completion is reported only when all of that is recorded, and reports that run. With a faithful file and host the command always runs, and all is recorded unless a stream makes a ninth chunk or more than 65,536 bytes. |
| RuntimeEngine.RuntimeEngine.RequestNextEffect | packages/coding-runtime/src/runtime.ts:253-300 | The effect it returns is recorded, in flight and undispatched. What is recorded, inputs aside, is the delivery due or the approval to be used, and then the very effect that the run's stage asks for; with a faithful file nothing but an input accepted in between can stop it, and only a preparation. |
| RuntimeEngine.RuntimeEngine.Reconcile | packages/coding-runtime/src/safe-actuation-host.ts:374-425 | A dispatched command is unknown, an undispatched one and every preparation not started. |
| RuntimeEngine.RuntimeEngine.SettleInFlightEffect | packages/coding-runtime/src/runtime.ts:338-440 | A dispatched command or preparation is never run again: besides inputs only the block is recorded. With a faithful file and host, an undispatched command runs exactly once; recorded are its dispatch, its output and the completion of that run exactly when the outcome is keepable, otherwise the block behind the last chunk that could be recorded, or nothing more if only the completion could not. A preparation gets its dispatch and, exactly when its revision still holds, its proposal; a read its result; a model step as below. |
| RuntimeEngine.RuntimeEngine.ExecuteModelAttempt | packages/coding-runtime/src/fake-tool-host.ts:482-527 | The observation is the provider's own answer to this attempt; the provider is called exactly once, only under a durable attempt record that had no call, so that no receipt of it exists before. |
| RuntimeEngine.RuntimeEngine.SettleModelEffect | packages/coding-runtime/src/runtime.ts:442-595 | What is recorded, inputs aside, is attempts, each new and each with the provider's answer to it, or the receipt of an attempt found in flight (unknown without one). With a faithful file and provider there is at least one attempt below the limit of three, every one reaches the provider once, and the last answer is recorded exactly when the run can take it. The automatic retry terminates. |
| RuntimeEngine.RuntimeEngine.AnyHistory | packages/coding-runtime/src/runtime.ts:338-595 | Over any steps, concurrent inputs, crashes and reopenings: native runs of a command are at most its dispatch records, those at most its requests, those at most its approvals, those at most the proposals of its call id, so a call id proposed once runs once at most; every attempt id reaches the provider at most once; every recorded completion reports a run there was. |
| CommandReruns.CallDispatchesAgain | packages/kernel/src/reducer.ts:603-653 | In any journal a command call that the model makes can be approved and dispatched once more, so its effect stays dispatched at most once exactly when the call was not dispatched before. |
| CommandReruns.CallRunsTwice | packages/coding-runtime/src/safe-actuation-host.ts:236-247 | A journal the runtime can write, with every event in its schema's ranges, in which a repeated call id makes one effect id dispatched twice. |
| RunLimits.ProposalLegalIff | packages/kernel/src/reducer.ts:603-653 | A command proposal is legal exactly when no input was accepted between the decision to prepare it and the proposal. |
| RunLimits.RejectedPreparationIsStuck | packages/coding-runtime/src/runtime.ts:381-406 | After that only an input or an end of the run is legal, and an input leaves it as it is. |
| CommandOutcome.CompletionLegalIff | packages/kernel/src/reducer.ts:1069-1095 | A command whose whole output was observed, whatever was committed in between, can report its completion exactly when on each stream cut pairs and dropped marks balance, or the output is not UTF-8 or was not kept, the clock did not run backwards, and a cleaned-up run can pay for it. |
| CommandOutcome.OutcomeRecordedIff | packages/coding-runtime/src/run-command.ts:356-385 | From the start of a command, for every way its process can end: kernel and record schema accept all its output and its completion exactly when its outcome is keepable: no stream makes more than eight chunks, bytes are not miscounted, the exit code is one byte, the clock did not run backwards, and the run can pay. |
| CommandOutcome.ShortOutputFits | packages/coding-runtime/src/run-command.ts:113-130 | At most 65,522 bytes on either stream never make a ninth chunk. |
| CommandOutcome.NinthChunkLosesOutcome | packages/kernel/src/schema.ts:724-748 | 21,841 to 21,845 three-byte characters are within the limit and balanced, and the outcome of the command that printed them is lost. |
| RunLimits.BudgetStaysGone | packages/kernel/src/reducer.ts:1943-1995 | A run that lost its coding budget never has one again and accepts no input. |
| RunLimits.InterruptionStopsReopening | packages/coding-runtime/src/runtime.ts:172-177 | A budgeted journal over 1,048,576 bytes stops reopening exactly when an attempt's outcome is neither finished nor retried automatically. |
| InputLedger.AdmissionAgrees | packages/coding-runtime/src/agent-client.ts:885-967 | On one state the client's admission check and the kernel's accept exactly the same inputs, with the same reserved step and order. |
| InputLedger.OfferedIffAccepted | packages/coding-runtime/src/view-projection.ts:477-523 | The view offers a mode exactly when the smallest new input of that mode would be accepted. |
| InputLedger.ViewSatisfiesSchema | packages/contracts/src/protocol.ts:1069-1112 | The view projected from any journal whose records keep the client's ranges satisfies the schema's ranges and its refinement. |
| LedgerView.ViewTells | packages/coding-runtime/src/view-projection.ts:477-552 | The view of any journal shows exactly the inputs that wait and those that were closed, in the order of acceptance, the bytes, places and steps left, and for each mode the first reason why no input of it is offered. |
| LedgerView.AdmissionTells | packages/coding-runtime/src/agent-client.ts:885-967 | A repeated command id is a duplicate; any other input is refused for the first of the reasons there is, or committed with its step and order. |
| Reservations.ReservationsKept | packages/coding-runtime/src/runtime.ts:494-510 | In every run whose model calls tools only where they were offered, with at most one input arriving per attempt and deliveries first, no more inputs are pending than steps are left, not counting the one to be delivered next. |
| Reservations.ToolStepCovered | packages/kernel/src/reducer.ts:1591-1640 | A step that calls tools keeps every reservation exactly when the step and the pending inputs fit the grant at its completion. |
| Reservations.OneInputInFlightIsCovered | packages/coding-runtime/src/runtime.ts:494-510 | So the offer of tools is safe if at most one input arrives while the attempt is in flight. |
| Reservations.AnswerThenDelivery | packages/kernel/src/reducer.ts:1702-1725 | A complete answer followed by its delivery keeps the reservations. |
| Reservations.TwoInputsOverrun | packages/kernel/src/reducer.ts:532-540 | Where one unreserved step was left, two inputs accepted in flight and a tool call leave more pending inputs than steps. |
| StepBudget.EnoughStep | packages/kernel/src/reducer.ts:1591-1730 | One record keeps the steps enough exactly when there was room: an input needs two steps more than inputs were pending unless one is delivered before the next step, a step that calls tools likewise, and a requested step must fit. |
| StepBudget.EnoughIffRoom | packages/kernel/src/reducer.ts:516-602 | In every run whose records decode, the steps left suffice for every accepted input throughout exactly when every record found room. |
| StepBudget.AnswersServeEveryInput | packages/coding-runtime/src/runtime.ts:253-300 | From any point before a step of a run that has not overdrawn its tool budgets: if the steps suffice, a model that only answers is given every pending input, and the run ends as answered; if not, it is blocked. |
| StepBudget.StepInProgressReserved | packages/kernel/src/reducer.ts:532-540 | While a step is in progress with only reserved steps beyond it, an input is accepted that reserves that very step, and the steps no longer suffice. |
| Reservations.SameStepReservedTwice | packages/kernel/src/reducer.ts:532-540 | Accepting two inputs, delivering the first and accepting a third makes two pending inputs reserve the same step. |
| ReservedSteps.AcceptanceDistinctIff | packages/kernel/src/reducer.ts:532-540 | An acceptance keeps the reserved steps distinct exactly when no pending input already holds the number it reserves. |
| ReservedSteps.DistinctIffFree | packages/kernel/src/reducer.ts:516-602 | In every run the reserved steps are distinct throughout exactly when every acceptance found its number free. |
| ReservedSteps.DeliveryThenAcceptance | packages/kernel/src/reducer.ts:532-602 | With reserved steps that count down, a delivery and an acceptance leave them distinct exactly when the delivered input was the last one accepted; otherwise the new input takes the step of the last one. |
| ReservedSteps.StaircaseIffNewestFirst | packages/kernel/src/reducer.ts:516-602 | In every run the reserved steps count down from the grant throughout exactly when every delivery took the input accepted last. |
| ReservedSteps.NewestFirstDistinct | packages/kernel/src/reducer.ts:516-602 | A run whose deliveries all take the input accepted last never reserves a step twice. |
| Projection.ProjectJournal | packages/coding-runtime/src/projection.ts:25-531 | The loop with its running state and cursor computes the fold, of which the next two rows say what it tells. |
| ProjectedEvents.RecordTold | packages/coding-runtime/src/projection.ts:25-531 | For every record of a journal the very events that it adds, with their cursors, the record as their source and the revision: an accepted and a delivered input that message and its new state, an attempt its id and the answer it is about, an ending the closures it announces and its own outcome. |
| ProjectedEvents.TerminalTold | packages/coding-runtime/src/projection.ts:16-21 | The events hold a terminal one exactly when the run has ended; then it is one, the last, and of that run's outcome. |
| Projection.ProjectTotal | packages/coding-runtime/src/projection.ts:25-47 | A journal that replays also projects, to the same state, without a projection error. |
| Projection.ProjectPrefix | packages/coding-runtime/src/projection.ts:25-531 | Projecting a prefix of the journal gives a prefix of the events. |
| Projection.ProjectNumbers | packages/coding-runtime/src/projection.ts:44-58 | Cursors are 0, 1, 2 and so on, and events have distinct ids if records do. |
| Projection.Subscription.Wake | packages/coding-runtime/src/agent-client.ts:1272-1291 | However the journal grew between wake-ups, exactly the events beyond the starting cursor have been delivered, once and in order. |
| Projection.ProjectTurns | packages/coding-runtime/src/view-projection.ts:409-439 | The loop's conversation is the turns of the specification. |
| Projection.AnswerAttributedIff | packages/coding-runtime/src/view-projection.ts:416-438 | An answer that continues the run is attributed to its own attempt, and announced, exactly when every earlier answer had text. |
| Projection.ClosuresAnnouncedIff | packages/coding-runtime/src/projection.ts:486-525 | Subscribers are told of every input that an ending closes exactly when the run was cancelled or blocked from outside or none was pending. |
| StagedTree.EntriesApart | packages/coding-runtime/src/repository-check-snapshot.ts:233-264 | In a file system directory different files have different relative paths, so the duplicate check never fires. |
| StagedTree.ExpectedIsLast | packages/coding-runtime/src/repository-check-snapshot.ts:224-232 | The manifest as a map holds exactly its paths, each with the last row of that path. |
| StagedTree.Visit | packages/coding-runtime/src/repository-check-snapshot.ts:233-264 | The recursive visit succeeds exactly when the subtree is sealed and every file is as the manifest says, and then has found exactly its paths. |
| StagedTree.ValidateStagedDirectory | packages/coding-runtime/src/repository-check-snapshot.ts:224-269 | Accepts a tree exactly when every directory is 0o555, nothing is linked or odd, and its flattening to files is the manifest as a map from path to mode, length and digest. |
| RepositoryCheck.CheckHost.RecordReceipt | packages/coding-runtime/src/repository-check-state.ts:213-237 | Written at most once, only for a report whose bytes are exactly its printed form and fit the limit with the receipt; a crash may leave it torn. |
| RepositoryCheck.CheckHost.FinalizeReceipt | packages/coding-runtime/src/repository-check-runner.ts:604-701 | There is an event exactly when the product's schema accepts the report; it carries the durable receipt, with its outcome exactly when container and staging are gone and `cleanup_failed` otherwise. With a faithful port container and staging are gone either way. |
| RepositoryCheck.CheckHost.FinalizeTwice | packages/coding-runtime/src/repository-check-runner.ts:604-701 | Finalizing again after any partial cleanup gives the same event except removed versus absent, and repairs a failed cleanup; or none either time. |
| RepositoryCheck.CheckHost.CompleteContainer | packages/coding-runtime/src/repository-check-runner.ts:703-791 | From any container state: what the run reported becomes the durable receipt when that is recordable, never for an ended container whose report is not: out of memory if the run was killed for it, otherwise the report's own verdict. With a faithful port the call completes exactly when the report is also presentable. |
| RepositoryCheck.CheckHost.ExecutePlanned | packages/coding-runtime/src/repository-check-runner.ts:793-837 | A completed execution carries the durable receipt, and its outcome is what the ended run tells (out of memory, or the report's verdict) unless the cleanup failed; a whole receipt is only finalized, a torn one or one with an unpresentable report stops every call; with a faithful port a recordable check completes exactly when it is presentable. |
| RepositoryCheck.CheckHost.Recover | packages/coding-runtime/src/repository-check-runner.ts:853-896 | Answers not-started only if the container was never started, and with a faithful port always does for an undispatched check without a receipt; with a faithful port every dispatched check whose report is recordable and every receipted one is cleaned up, and completes, with what the ended run tells, exactly when its report is presentable; otherwise it is unknown for ever. |
| RepositoryCheck.CheckHost.AnyHistory | packages/coding-runtime/src/repository-check-runner.ts:793-896 | Over any calls stopped anywhere the container is started at most once, the receipt written at most once, every completed event carries that same receipt and says what the ended run tells, or that the cleanup failed exactly when container or staging are still there, and none is ever produced for an unpresentable report. |

## Left out

- Kernel.Reduce: covers runs with a model that reads the repository and proposes commands; edits, new files,
  repository checks, review captures, eligible read-only batches, context items and the deterministic fake runs are
  not modelled, nor are messages inside events and, but for a
  command's, timestamps and exit codes.
- KernelFacts.ReduceBlind: covers the events of that run, not those of the other kinds of run in the cited reducer.
- Projection.ProjectJournal: covers the same events, not those of the other kinds of run in the cited loop.
- CommandOutcome.OutcomeRecordedIff: whether the journal and the grant have room left for the records is not part of it;
  visible bytes are arbitrary.
- EdenPatch.CreateEdenPatch: the reader takes paths as they are printed and one file at a time.
- RuntimeEngine.RuntimeEngine.SettleInFlightEffect: what a faithful file records is stated for a journal with room for
  nineteen records and every input still to come, under a schema that refuses no event within the stated ranges.
- RuntimeEngine.RuntimeEngine.Append: the schema's patterns on ids and texts are one arbitrary predicate.
- RepositoryCheck.CheckHost.FinalizeReceipt: that the 65,536 bytes of a result leave room for the cleanup's fields is
  taken for granted, so acceptance depends on the report alone.
- ProbeRunner.ProbeHost.Execute: clocks and the checks that recorded times do not run backwards are not modelled, nor
  is the lock file that a killed process leaves behind.
- ProbeRunner.ProbeHost.Recover: executor and recovery share one tail in the model where the source repeats it.
- RepositoryCheck.CheckHost.ExecutePlanned: staging, catalog selection and the Docker compatibility check before it
  are not modelled; the state directory starts out prepared.
- AnchorEditFile.EditWorkspace.Execute: the workspace lock, Git's answer that the file is tracked and the size limits
  are one arbitrary refusal.
- StagedTree.ValidateStagedDirectory: a file that changes while it is being read is not modelled.
- JsonInjective.SameTextIffEquivalent: NaN, infinities, negative zero, undefined and values with toJSON, none of which
  occur in decoded JSON, are not modelled.
- Projection.Subscription.Wake: safety only; that a sleeping subscriber is woken is not claimed.
- InputLedger.ViewSatisfiesSchema: message and command ids are numbers and contents are byte lengths, so their own
  patterns are not modelled.
- Field-by-field schema decoders, container inspection shape checks, doctor rows and command-line arguments.
- Real process spawning, Docker and Git invocations, provider network calls and terminal rendering.
- SHA-256 itself, clocks and id generation.
- The TUI, headless client, planning, goals, skills and subagent packages.
