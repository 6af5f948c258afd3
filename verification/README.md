# The run pipeline, verified

This project models the path a model answer takes through the daemon: from native provider chunks,
through the normalized event stream and the run executor, into committed transcript rows, out to live
subscribers, and into each client's replica. Beside it stand the two algorithms that path leans on -
the context window and the context rebuild - and the workspace check that keeps the crates acyclic.

| File | What it models |
|---|---|
| `Text.dfy`, `ModelTypes.dfy`, `SessionTypes.dfy` | characters and bytes; messages, calls, events and the stream-order validator; rows, frames and projections |
| `ToolReassembly.dfy`, `ProviderStream.dfy`, `ProviderResponse.dfy` | function-call fragments; the translator, its queue and the polled stream; what a whole response says, chunks against items |
| `ContextWindow.dfy`, `TrimOptimality.dfy` | the in-place compression loop and cache marks; when the loop compresses as few results as possible |
| `ContextRebuild.dfy`, `RunReplay.dfy` | the two-pass replay filter; what it makes of the rows a run committed |
| `RunStatus.dfy`, `RunEvents.dfy` | the status relation; what a run asks of the world and what happens during it |
| `RunProtocol.dfy`, `RunHistory.dfy` | the order of happenings, as an automaton; readings of a history |
| `RunWindow.dfy` | an attempt's window accounting and live message list, read from a history |
| `RunReadings.dfy`, `RunRounds.dfy` | the promises about a run's history; what each of its rounds leaves |
| `RunExecutor.dfy` | the executor |
| `CancellationSignal.dfy`, `CancellationPolls.dfy` | the waiter protocol, one atomic step at a time; what the schedule alone says of its polls |
| `SnapshotBudget.dfy`, `HostBroadcast.dfy` | the snapshot's byte budget; the subscriber registry |
| `TextDeltas.dfy`, `RunDeltas.dfy` | the transient text windows; what a run shows them |
| `TranscriptRows.dfy`, `SessionClient.dfy` | reads of one transcript and how they meet; the client's state |
| `Replication.dfy` | commit, publish, register and drain of one session, interleaved |
| `DependencyCycles.dfy` | the coloured depth-first search |

## How the parts are stated

*The executor* runs against an environment: the answers to its n-th look at the cancellation handle, its
n-th wait for the provider, its n-th tool call, its n-th request for pending turns and its n-th durable
write, with a horizon, because a run may be observed only in part (`Unfinished`). It records a history,
the list of everything it was told, did and committed, and the promises are about histories.

`Orderly` (`RunProtocol`) is the backbone: each happening is one that may come next, and what the run was
told is exactly what the environment answers next - no answer skipped, none invented. A run completes only
from the phase behind a heard finish without calls and an empty batch of turns; a round's calls are those
it heard, dispatched once each in order, and each is answered with the port's own reply; an assistant row
belongs to one closed round, once, with that round's reasoning, and an unfailed round is left only when
its reasoning is committed; a failed round ends a run only if no stop was seen; a notice needs a signal just cleared; and no
more than five looks come in a row. `Safe` is what every history keeps, also when a durable write failed:
it is orderly; every request is the live message list of its attempt behind one more window pass, and so the
base messages followed by exactly the live context the history spells, seen through window passes, with paired
calls and exactly the attachments owed; every assistant row holds its text whole; attempts begin within the
budget and without durable output, and no run gives up on a failed round that it could have retried;
notices never outnumber cancel edges; the log never lags behind the stream when it is used; statuses follow
a legal path. `EndedWith` is what an execution that returned adds: one terminal status as the last write,
text conserved, a stop answered by one notice as the last row. That is compared on the characters trimming
cannot remove, because a retried attempt keeps whitespace-only pending text that may prefix the next row.
The answer text, the reasoning, the calls and the usage a history speaks of are folds over the facts it
heard and the order rules accepted, so dropping a fact or inventing one breaks them. So is the window's
accounting (`RunWindow.AccountingOf`): fresh when an attempt begins, calibrated by each report it heard.
`RequestsAreReviewed` says of every request, on its messages alone, what that makes of it.

*The provider stream* is compared with `Seen`, a plain record of everything the provider sent, gathered
whether or not the translator still listens. `Completes` says when that is a whole response, `Settled` what
the consumer then received, item by item; `Explains` and `ExplainsAtEnd` say what each failure means.
`ProviderResponse` says the same without that record: which native chunks are a complete response, and that
the answer and the thinking the items spell are those of the native choices, character by character.

*Concurrent parts* (`CancellationSignal`, `Replication`) are state machines over atomic steps; their
results quantify over every schedule of enabled actions, and `CancellationPolls` reads what each poll must
answer from the schedule without looking into the state. `TextDeltas` quantifies over every script of its
four operations, and `HostBroadcast` over every call of each operation. `Replication` and `RunDeltas` link
these parts to the objects whose steps they are.

*Classes* keep the fields and in-place updates of the source; their methods are tied to specification
functions whose properties are the lemmas of the table.

## What the code does where one might expect otherwise

- A compressed tool result can be 14 or 15 characters long, below the documented floor of 16
  (`CompressedLengthFloor` gives the exact condition, `TheFloorIsMissed` two families of inputs).
- The trim takes the longest result first, so it compresses as few results as possible exactly when no
  longer result saves less than a shorter one (`TrimIsSmallestIffSavingsFollowRank`). Results without
  leading whitespace are always such (`UnpaddedResultsFollowRank`); with padded ones, compressing one
  shorter result can fit where the trim compresses two (`FewerCompressionsCanFit`).
- The watermark removes one repeated row. Pending turns are committed as a batch and published row by
  row, so a registration between the two can show rows twice (`ABatchCanBeShownTwice`); delivery is
  exactly once if and only if at most one row was unpublished (`OrderedIffAtMostOneUnpublished`).
- Two call rows with one identity can share one replayed result (`RepeatedCallRowsShareOneResult`), exactly
  when both stand before that identity's first result (`OneCallPerResult`).
- The tool-round counter is tested only for zero, and the durable-output flag makes even that test
  redundant (`ToolRoundCounterNeverDecides`).
- The executor's "clear the signal without a notice" branches are never taken when cancelling and
  resetting are atomic: the notice budget is always free where they stand, and the model proves it.
- A stop does not prevent one more provider round (`OneRoundMayStartBehindAStop`) or the rest of one tool
  batch (`OneBatchMayGoOnBehindAStop`); it prevents every further one (`StopIsFinal`), and a run that saw
  a stop ends interrupted unless its tool port broke (`StopEndsTheRun`).
- A round whose first fragment of reasoning already crosses the bound keeps none of it: with no text, such
  a round leaves no row (`EveryRoundLeavesItsRow`, `EchoIsCutAtTheBound`).

## Model

| member | source | states |
|---|---|---|
| `RunExecutor.Execute` | crates/intention-engine/src/runtime.rs:528-636 | For every environment - any mix of provider events, errors, timeouts, tool outcomes, pending turns, cancels, stops and storage failures - the history is safe: an orderly, true account of what that environment answered, with all the promises above. An execution that returns a result either refused an unusable configuration before running or ended with exactly one terminal status as its last write, with no streamed text lost, every assistant row holding its own text whole, and with the error that the last fact heard or the broken port gave; one that returns an error has a failed write, a refused value or the end of the observation to show for it; the fall-through behind the attempt loop is reached only with an attempt budget of zero |
| `RunExecutor.ToolRoundCounterNeverDecides` | crates/intention-engine/src/runtime.rs:601-628 | For every number of tool rounds the wrapped 8-bit counter and the exact one leave a failed run with the same rows and status, or both retry, because a tool round made the output durable |
| `RunExecutor.RunExecution.SettleAttempt` | crates/intention-engine/src/runtime.rs:601-630 | A failed attempt is retried if and only if the failure is retryable, nothing is durable or pending and the budget lasts; otherwise the run ends Failed with the pending text as its last step |
| `RunExecutor.RunExecution.TryOnce` | crates/intention-engine/src/runtime.rs:592-630 | One attempt completes the run, fails it with the error the provider or the port gave, or leaves a run that may begin the next one |
| `RunExecutor.RunExecution.DriveAttempt` | crates/intention-engine/src/runtime.rs:638-855 | One attempt keeps every whole-run promise and leaves the run either ended with a terminal status or with a failed round that committed nothing and saw no stop |
| `RunExecutor.RunExecution.DriveProviderRound` | crates/intention-engine/src/runtime.rs:954-1122 | One round sends exactly one request and closes as its stream ended: finished, cancelled with the signal raised, failed as the last fact says, or with exactly the calls it heard and their whole reasoning |
| `RunExecutor.RunExecution.SendRequest` | crates/intention-engine/src/runtime.rs:964-973 | The request of a round is the live message list behind a window pass, the attempt's attachments, paired calls and the next step number |
| `RunExecutor.RunExecution.WaitForFact` | crates/intention-engine/src/runtime.rs:975-1033 | A wait yields the environment's next provider fact, none skipped, unless the cancellation is there first |
| `RunExecutor.RunExecution.AcceptEvent` | crates/intention-engine/src/runtime.rs:1068-1093 | An accepted fact is taken in, once: an answer delta into the pending text, reasoning into the echo, a known usage into the run's, any usage into the window's accounting, a call into the round's calls |
| `RunExecutor.RunExecution.ObserveReasoning` | crates/intention-engine/src/runtime.rs:1388-1400 | The echo grows by the fragment or, once the bound is crossed, is frozen for good |
| `RunExecutor.RunExecution.ReasoningAttachment` | crates/intention-engine/src/runtime.rs:1415-1431 | An attachment is refused exactly when the round's reasoning crossed the bound or cannot be carried; otherwise it names the round's calls and its echo |
| `RunExecutor.AttachmentIsWhole` | crates/intention-engine/src/runtime.rs:1415-1431 | An attachment that could be built carries everything the round streamed on the reasoning channel |
| `RunExecutor.RunExecution.CloseToolRound` | crates/intention-engine/src/runtime.rs:1104-1118 | A round with calls closes with an attachment for exactly those calls, or fails as unrepresentable, committing nothing and leaving its text pending |
| `RunExecutor.RunExecution.CloseFinishedRound` | crates/intention-engine/src/runtime.rs:1094-1103 | A finished round without calls leaves at most its one row, with its whole text and reasoning |
| `RunExecutor.RunExecution.CloseInterruptedRound` | crates/intention-engine/src/runtime.rs:975-984 | An interrupted round commits its partial text as a cut row with the reasoning seen |
| `RunExecutor.RunExecution.CloseEndedStream` | crates/intention-engine/src/runtime.rs:1041-1065 | A stream that dried up fails its round for good, unless it carried calls |
| `RunExecutor.RunExecution.CommitText` | crates/intention-engine/src/runtime.rs:1179-1203 | Moves the pending text into one assistant row, character by character: all that was streamed since the row before, but for leading whitespace of a step that left no row |
| `RunExecutor.RunExecution.CommitStep` | crates/intention-engine/src/runtime.rs:1179-1203 | A closed step leaves exactly one row with its whole text, unmarked; a step with neither text nor reasoning leaves the history as it was |
| `RunExecutor.RunExecution.CommitInterruptedStep` | crates/intention-engine/src/runtime.rs:1217-1228 | A stopped step's row is its text and the cut marker; a step without text carries no marker, and without reasoning leaves no row |
| `RunExecutor.RunExecution.FinishRun` | crates/intention-engine/src/runtime.rs:1235-1255 | The terminal status is the last durable write, made once, after one Running, with the last usage reported |
| `RunExecutor.RunExecution.EndStoppedRun` | crates/intention-engine/src/runtime.rs:868-886 | A stopped run ends Interrupted with exactly one stop notice as its last row |
| `RunExecutor.RunExecution.RecordInterruptNotice` | crates/intention-engine/src/runtime.rs:898-914 | Recording a notice re-arms the signal and keeps the number of notices within the number of cancel edges |
| `RunExecutor.RunExecution.AnswerSignal` | crates/intention-engine/src/runtime.rs:677-692 | A boundary that saw the signal leaves it re-armed with exactly one notice more; the budget is always free there |
| `RunExecutor.RunExecution.ConsumePendingUserTurns` | crates/intention-engine/src/runtime.rs:926-946 | All pending turns of the next batch join the live context in FIFO order and are reported, or the batch fails as a whole and no turn of it joined |
| `RunExecutor.RunExecution.Dispatch` | crates/intention-engine/src/runtime.rs:763-792 | A call is handed to the port once, the port's own next reply is its outcome, and a port that replies has committed exactly the call's row and its result's row |
| `RunExecutor.RunExecution.RunCall` | crates/intention-engine/src/runtime.rs:770-820 | One call adds exactly the port's reply to it behind the replies to the calls before it |
| `RunExecutor.RunExecution.RunToolBatch` | crates/intention-engine/src/runtime.rs:763-821 | Either every call of the round is dispatched and answered with the port's reply, in call order, or a broken tool port ends the run Failed; the batch counts as interrupted exactly when some reply was partial |
| `RunExecutor.RunExecution.SettleBatchSignal` | crates/intention-engine/src/runtime.rs:833-848 | A signal seen behind a batch is answered by a notice unless a partial tool result already tells the model, and is re-armed either way |
| `RunExecutor.RunExecution.AfterFinished` | crates/intention-engine/src/runtime.rs:666-706 | A finished round of a stopped run ends it Interrupted; otherwise it goes on only with a notice or a joined turn more, and completes without a pending turn |
| `RunExecutor.RunExecution.AfterInterrupted` | crates/intention-engine/src/runtime.rs:707-727 | An interrupted round ends the run if and only if it was stopped; otherwise it leaves one notice and a re-armed signal |
| `RunExecutor.RunExecution.AfterFailed` | crates/intention-engine/src/runtime.rs:728-748 | A failed round ends a stopped run Interrupted; otherwise the caller gets it back untouched when the counter shows no tool round, and the run ends Failed with the pending text as its last step when it shows one |
| `RunExecutor.RunExecution.AfterToolCalls` | crates/intention-engine/src/runtime.rs:749-852 | A tool round goes on only when no stop came up to the look behind the batch, with every call replied to; with a stop it ends Interrupted, and with a broken port Failed |
| `RunExecutor.RunExecution.WaitForRetry` | crates/intention-engine/src/runtime.rs:1132-1165 | Waiting changes no committed text and no evidence; an early wake-up records its notice |
| `RunExecutor.RunExecution.BeginAttempt` | crates/intention-engine/src/runtime.rs:638-655 | An attempt begins with the base messages and the surviving additions, and only while the run has no assistant, call or result row |
| `RunExecutor.RunExecution.ApplyWindow` | crates/intention-engine/src/runtime.rs:1433-1445 | The live list becomes its own window pass, under the accounting and the attachments the attempt has at that moment |
| `RunExecutor.RunExecution.ReviewWindow` | crates/intention-engine/src/runtime.rs:683-696 | Behind the pass of the attempt loop the live list is the one the next request must be: trimmed and marked under the accounting the history gives |
| `RunExecutor.RunExecution.AnswerCall` | crates/intention-engine/src/runtime.rs:790-820 | A tool result joins the live list through a window pass of its own, before the next call is dispatched |
| `RunExecutor.RunExecution.EndFailedRun` | crates/intention-engine/src/runtime.rs:617-628 | A run that may not be retried commits what is pending as its last step and ends Failed, with an error that names the last fact heard |
| `RunExecutor.RunCancellation.Reset` | crates/intention-engine/src/runtime.rs:301-311 | A reset clears the signals and frees the notice budget but never a stop |
| `RunExecutor.RunCancellation.TakeInterruptNotice` | crates/intention-engine/src/runtime.rs:314-320 | A notice is owed once for each raised signal |
| `RunExecutor.AdditionsArePaired` | crates/intention-engine/src/runtime.rs:646-658 | What survives a retry is paired on its own, so an attempt never starts with an open tool call |
| `RunExecutor.BatchCompletes` | crates/intention-engine/src/runtime.rs:756-821 | A batch answered call by call with the port's replies keeps the live context paired |
| `RunProtocol.StopIsFinal` | crates/intention-engine/src/runtime.rs:659-672 | Over every orderly history at most one provider round starts behind a stop, and the calls dispatched behind it belong to at most one tool batch |
| `RunProtocol.OneRoundMayStartBehindAStop` | crates/intention-engine/src/runtime.rs:659-664 | One round really can start behind a stop: an orderly history in which the stop comes behind the last look before the request |
| `RunProtocol.OneBatchMayGoOnBehindAStop` | crates/intention-engine/src/runtime.rs:763-792 | The calls of one batch really can be dispatched behind a stop: an orderly history in which it comes between the round and its dispatch |
| `RunProtocol.PhasesAreTrue` | crates/intention-engine/src/runtime.rs:954-1122 | Where an orderly history stands is what its environment said: a closed round ended as the last fact heard says, a broken port really broke, a settled run heard its finish and found no turn, a stop was sent |
| `RunProtocol.LooksAreBounded` | crates/intention-engine/src/runtime.rs:528-855 | The executor never idles: it looks at the handle at most five times between two other happenings, so a run observed for long did much |
| `RunHistory.EchoIsCutAtTheBound` | crates/intention-engine/src/runtime.rs:1388-1400 | The bounded echo is, exactly, the fragments of the round before the first one that would have crossed the bound, and all of them when none would |
| `RunHistory.EchoIsWhole` | crates/intention-engine/src/runtime.rs:1388-1400 | The bounded echo is the whole reasoning of the round unless it crossed the bound |
| `RunHistory.AnswerTextIsEveryDelta` | crates/intention-engine/src/runtime.rs:1363-1366 | The answer text of a run is the concatenation of every accepted answer delta, whitespace included |
| `RunHistory.LastUsageIsTheLastKnown` | crates/intention-engine/src/runtime.rs:1368-1380 | The usage a run records is the last one the provider reported as known; an unknown one never replaces it |
| `RunHistory.AttachmentsCarryTheirRound` | crates/intention-engine/src/runtime.rs:1402-1431 | A tool round owes an attachment exactly when it streamed any fragment of reasoning, even an empty one, and it carries the calls and all fragments |
| `RunRounds.OneRowPerRound` | crates/intention-engine/src/runtime.rs:947-953 | No round commits more than one assistant row, and one that may still commit has committed none, in every orderly history |
| `RunRounds.RowsCarryTheirReasoning` | crates/intention-engine/src/runtime.rs:947-953 | An assistant row carries everything its own round streamed on the reasoning channel, or exactly the fragments before the one that crossed the bound; the row of a failed round carries none |
| `RunRounds.EveryRoundLeavesItsRow` | crates/intention-engine/src/runtime.rs:1166-1203 | In every run, each round that did not fail leaves exactly one row if it streamed any non-blank text or reasoning within the bound, and none otherwise |
| `RunRounds.RowSpellsItsRound` | crates/intention-engine/src/runtime.rs:1166-1203 | An assistant row spells, up to whitespace, exactly the text its own round streamed |
| `RunHistory.RetryLosesNoContext` | crates/intention-engine/src/runtime.rs:607-630 | While a run has no durable output, its live context is exactly the additions the next attempt starts with, and no attachment is owed |
| `RunHistory.NoEvidenceNoText` | crates/intention-engine/src/runtime.rs:1448-1455 | A run without durable output has committed no text |
| `RunHistory.PairedConcat` | crates/intention-engine/src/runtime.rs:749-852 | Paired blocks stay paired behind one another |
| `RunReadings.EndingsAreJustified` | crates/intention-engine/src/runtime.rs:638-855 | A run completes only behind a heard finish without calls, with no pending turn left and no stop seen; it fails only behind a broken tool port or a round that failed as the last fact says; it is interrupted only by a stop that was sent |
| `RunReadings.StopEndsTheRun` | crates/intention-engine/src/runtime.rs:659-748 | A run that saw a stop ends Interrupted - or Failed, only when its tool port broke - with at most one round and one batch behind the stop |
| `RunReadings.FailedRunsWereSpent` | crates/intention-engine/src/runtime.rs:607-628 | A run that failed with a failed round could not have been retried: the failure was final, output was durable or the budget was spent |
| `RunReadings.RequestRead` | crates/intention-engine/src/runtime.rs:659-672 | A faithful request behind a look that saw no stop keeps every promise, becomes the live list, and is counted late exactly when the stop came behind that look |
| `RunReadings.AttemptRead` | crates/intention-engine/src/runtime.rs:607-628 | A further attempt is legal only within the budget, after a retryable failure that committed nothing and without durable output, and it keeps every promise |
| `RunReadings.RowRead` | crates/intention-engine/src/runtime.rs:1192-1202 | Each committed row adds exactly its own text to the committed text and keeps notices within cancel edges |
| `RunReadings.FinishRead` | crates/intention-engine/src/runtime.rs:1235-1255 | The terminal write of a settled run is what the whole-run result promises |
| `RunReadings.RequestsAreReviewed` | crates/intention-engine/src/runtime.rs:647-653 | Over every history of a run, each request fits the window of its attempt - under an accounting that is fresh when the attempt begins and calibrated by each usage report with the characters of the request it reports on - or holds no message that could still be compressed; and its cache marks stand exactly on its last message and at the end of its leading system messages |
| `RunReadings.RequestIsFaithful` | crates/intention-engine/src/runtime.rs:683-696 | A request that is the live list behind one more window pass carries the base messages followed by exactly the live context, seen through window passes |
| `RunReadings.LiveListIsAnImage` | crates/intention-engine/src/runtime.rs:1439-1445 | However many passes it went through, the live list stands for the base messages followed by the live context, message by message |
| `RunWindow.WindowedIsReviewed` | crates/intention-engine/src/context_window.rs:114-122 | A list that a window pass has seen last fits or holds nothing compressible, and carries its marks exactly at its end and at the end of its leading system messages |
| `RunStatus.LegalPathsEndAtTheFirstTerminal` | crates/intention-proto/src/run.rs:130-163 | A legal status path ends at its first terminal status and is at most two writes long |
| `ModelTypes.AcceptedIffInOrder` | crates/intention-providers/src/model.rs:704-757 | The order rules accept a stream if and only if it starts once and at its beginning, finishes at most once and last, and reports usage at most once |
| `ContextWindow.TrimIsGreedy` | crates/intention-engine/src/context_window.rs:124-138 | The trimmed list differs from the original exactly in compressed tool results, every one of which outranks every compressible result left alone, and it fits or nothing compressible is left |
| `ContextWindow.TrimIsMinimal` | crates/intention-engine/src/context_window.rs:124-138 | No shorter choice in rank order would do: every list that compresses only some of what the trim compressed, in rank order, exceeds the window |
| `ContextWindow.LastCompressionWasNeeded` | crates/intention-engine/src/context_window.rs:124-138 | Undoing the lowest-ranked compression makes the list exceed the window again |
| `ContextWindow.FewerCompressionsCanFit` | crates/intention-engine/src/context_window.rs:124-138 | The choice is greedy, not always smallest: an input where the trim compresses two results and compressing the shorter one alone fits |
| `TrimOptimality.TrimIsSmallestIffSavingsFollowRank` | crates/intention-engine/src/context_window.rs:124-138 | The trim compresses as few results as any choice that fits, under every accounting, if and only if no longer result saves less than a shorter one |
| `TrimOptimality.RankedSavingsMakeTheTrimSmallest` | crates/intention-engine/src/context_window.rs:124-138 | Where savings follow rank, every choice of fewer results than the trim compresses exceeds the window |
| `TrimOptimality.UnrankedSavingsHaveASmallerChoice` | crates/intention-engine/src/context_window.rs:72-138 | Where they do not, a window calibrated to some choice - at any number of tokens - makes that choice fit while the trim compresses more results |
| `TrimOptimality.UnpaddedResultsFollowRank` | crates/intention-engine/src/context_window.rs:194-204 | Savings follow rank whenever no compressible result starts with whitespace, because each then saves all but 29 characters |
| `ContextWindow.TrimIsIdempotent` | crates/intention-engine/src/context_window.rs:124-138 | Trimming a trimmed list changes nothing |
| `ContextWindow.CompressedIsNeverCompressible` | crates/intention-engine/src/context_window.rs:175-204 | A compressed result never qualifies again, which bounds the loop by the number of tool messages |
| `ContextWindow.CompressedToolResult` | crates/intention-engine/src/context_window.rs:194-204 | A compressed non-blank result is non-blank and 14 to 29 characters long; a blank one is the placeholder |
| `ContextWindow.CompressedKeepsTheBeginning` | crates/intention-engine/src/context_window.rs:189-204 | A result with text in it is compressed to exactly its first sixteen characters from the first one that is not whitespace - all of them when there are fewer - and the marker |
| `ContextWindow.TheMeasureIsTheTextSent` | crates/intention-engine/src/context_window.rs:141-172 | The measured input is the length of all the text a request sends: contents, call arguments and attachments |
| `Text.TrimStartIsASuffix` | crates/intention-engine/src/context_window.rs:194-204 | Trimming the start takes away leading whitespace and nothing else |
| `ContextWindow.CompressedLengthFloor` | crates/intention-engine/src/context_window.rs:194-204 | The documented floor of 16 characters is met if and only if the content, without leading whitespace, has at least three characters |
| `ContextWindow.TheFloorIsMissed` | crates/intention-engine/src/context_window.rs:194-204 | Blank-padded results of one and two characters are compressible and end at 14 and 15 characters |
| `ContextWindow.LargestOutranksTheRest` | crates/intention-engine/src/context_window.rs:175-187 | The chosen result is the longest compressible one, the last of equals |
| `ContextWindow.CompressingOneLowersTheCount` | crates/intention-engine/src/context_window.rs:124-138 | Each turn of the loop uses up one compressible result |
| `ContextWindow.WindowIsIdempotent` | crates/intention-engine/src/context_window.rs:114-122 | A whole window pass - trimming and cache marks - is idempotent |
| `ContextWindow.WindowKeepsImage` | crates/intention-engine/src/context_window.rs:114-138 | A window pass keeps length, order, roles, identities, calls and every non-tool content |
| `ContextWindow.MarkingKeepsTheMeasure` | crates/intention-engine/src/context_window.rs:212-222 | Cache marks change neither the estimate nor what is compressible |
| `ContextWindow.SameRolesSameSystemBlock` | crates/intention-engine/src/context_window.rs:225-237 | The leading system block depends on the roles alone |
| `ContextWindow.ContextWindowState.ObserveUsage` | crates/intention-engine/src/context_window.rs:72-83 | Behind a report every request up to the reported size is estimated at exactly the reported input tokens; an unreported usage forgets the calibration |
| `ContextWindow.ContextWindowState.EstimateTokens` | crates/intention-engine/src/context_window.rs:87-101 | Below the counter's bound the estimate is the reported tokens plus a quarter, rounded up, of the characters beyond the reported request - or of all characters when nothing was reported |
| `ContextWindow.ReportedRequestsAreExact` | crates/intention-engine/src/context_window.rs:72-101 | Behind a report every request of at most the reported size is estimated at exactly the reported input tokens |
| `ContextWindow.UnreportedUsageForgets` | crates/intention-engine/src/context_window.rs:72-83 | Behind an unknown usage every estimate is a quarter of the characters again, rounded up |
| `ContextWindow.SmallerMessagesFit` | crates/intention-engine/src/context_window.rs:87-101 | The estimate is monotone: what fits still fits when messages get smaller |
| `ContextWindow.ContextWindowState.TrimToWindow` | crates/intention-engine/src/context_window.rs:124-138 | The in-place loop computes the greedy trim the lemmas speak about |
| `ContextWindow.ContextWindowState.MarkCacheBreakpoints` | crates/intention-engine/src/context_window.rs:212-222 | The in-place marks are the declared ones: the end of the system block and the stable prefix |
| `ContextWindow.ContextWindowState.Apply` | crates/intention-engine/src/context_window.rs:114-122 | The in-place pass is total and equals the idempotent window function |
| `ContextRebuild.ModelContextMessages` | crates/intention-engine/src/lib.rs:690-744 | The two-pass rebuild succeeds exactly when no row is rejected and then equals the declarative keep rule, row by row in order |
| `ContextRebuild.FirstResults` | crates/intention-engine/src/lib.rs:693-700 | The first pass finds, for each call, the first row that answers it |
| `ContextRebuild.ReplayRow` | crates/intention-engine/src/lib.rs:703-742 | The second pass keeps exactly the calls and results that the declarative rule keeps |
| `ContextRebuild.EveryCallIsAnswered` | crates/intention-engine/src/lib.rs:690-744 | Every replayed call message is answered by a later replayed result |
| `ContextRebuild.EveryResultFollowsItsCall` | crates/intention-engine/src/lib.rs:690-744 | Every replayed result answers a call replayed before it |
| `ContextRebuild.OneResultPerCall` | crates/intention-engine/src/lib.rs:690-744 | A call identity has at most one replayed result |
| `ContextRebuild.OneCallPerResult` | crates/intention-engine/src/lib.rs:690-744 | With no row rejected, a replay makes each call once if and only if no two call rows of one identity both stand before that identity's first result |
| `ContextRebuild.RepeatedCallRowsShareOneResult` | crates/intention-engine/src/lib.rs:690-744 | Such rows do occur: two replayed calls share one result |
| `ContextRebuild.Placed` | crates/intention-engine/src/lib.rs:703-742 | Every kept row's message is in the output, at the place row order gives it |
| `ContextRebuild.Source` | crates/intention-engine/src/lib.rs:703-742 | Every output message comes from one kept row |
| `ContextRebuild.PlacesAscend` | crates/intention-engine/src/lib.rs:703-742 | The output preserves row order |
| `RunReplay.RunsReplayInPairs` | crates/intention-engine/src/lib.rs:690-744 | Whatever a run went through, broken tool ports included: when the rows it committed replay at all, every replayed call is immediately followed by its own result, and no other result appears |
| `RunReplay.PairedIffNoCallsCollide` | crates/intention-engine/src/lib.rs:690-744 | For the logs of any number of runs the rebuilt context is paired that way if and only if no two call rows of one identity stand before its first result |
| `RunReplay.EveryRunKeepsItsLog` | crates/intention-engine/src/runtime.rs:763-792 | In the log of an orderly run every result row stands right behind its call's row, and only the call the port is at work on, or broke at, lacks its result |
| `RunReplay.LogsStayInOrder` | crates/intention-engine/src/lib.rs:690-744 | Logs of runs one behind another keep every result right behind its call |
| `RunReplay.ReplayedCallsWereDispatched` | crates/intention-engine/src/lib.rs:703-742 | A call replayed from a run's log is one that the run dispatched: its name, its arguments and its identity |
| `RunReplay.TextIsReplayed` | crates/intention-engine/src/lib.rs:703-742 | The text of a user turn, a notice or an answer comes back whole under its own role |
| `RunReplay.OnlyToolRowsAreRefused` | crates/intention-engine/src/lib.rs:690-744 | A run's log is refused exactly for a tool row that would be replayed: a call without a name or an object as arguments, or a blank result |
| `ToolReassembly.InterleavingIndependent` | crates/intention-providers/src/generic_chat.rs:252-256 | Two chunk sequences with equal fragments for every call reassemble to equal calls, or both conflict, whatever the order between calls |
| `ToolReassembly.EachCallOnItsOwn` | crates/intention-providers/src/generic_chat.rs:252-256 | The shared map holds, for each call, exactly what its own fragments merge to alone |
| `ToolReassembly.ConflictsAreOwn` | crates/intention-providers/src/generic_chat.rs:312-342 | Reassembly conflicts if and only if some call's own fragments contradict each other |
| `ToolReassembly.ConflictIffContradiction` | crates/intention-providers/src/generic_chat.rs:312-342 | A call conflicts if and only if two of its fragments give different identities or different names: a value may be repeated but not changed |
| `ToolReassembly.OwnFragmentsAgree` | crates/intention-providers/src/generic_chat.rs:334-342 | Every identity and name a call's fragments carry is the one kept |
| `ToolReassembly.OwnArgumentsConcatenate` | crates/intention-providers/src/generic_chat.rs:312-325 | A call's arguments are the arrival-order concatenation of its own fragments |
| `ToolReassembly.InOrderAscends` | crates/intention-providers/src/generic_chat.rs:287-300 | Calls are emitted in strictly ascending order of choice and index |
| `ProviderResponse.Normalize` | crates/intention-providers/src/stream.rs:46-140 | For every native chunk and error sequence, a consumer that polls to the end sees a stream that begins with Started, that the order validator never rejects, with usage and textless reasoning at most once, no empty text and exactly one terminal item as the last. It is finished if and only if the native chunks are a complete response; then the answer it spells is the concatenation of the content of all choices, its thinking that of their reasoning, character by character, with the pieces in arrival order, the first usage, the one finish reason and one well-formed call for each key in ascending order. Otherwise it is a beginning of that, no call, and a failure that names something really wrong |
| `ProviderResponse.ResponseIsTold` | crates/intention-providers/src/generic_chat.rs:163-301 | What the items of a response say - answer, thinking, their order, usage, finish reason - is what the native choices up to and including the chunk with the finish reason say, and of a failed response a beginning |
| `ProviderResponse.CompletesDirectly` | crates/intention-providers/src/generic_chat.rs:163-301 | A response is complete if and only if its native items hold no error, exactly one finish reason with nothing but usage behind it, a first usage that adds up and only whole calls |
| `ProviderResponse.SeenDirectly` | crates/intention-providers/src/generic_chat.rs:163-258 | The fragments, reasons and usages a response is judged by are those of its native choices, each call fragment under its choice's and its own index |
| `ProviderResponse.NothingBehindTheFinish` | crates/intention-providers/src/generic_chat.rs:164-191 | In a response with nothing but usage behind its finish reason, nothing the provider said is left out |
| `ProviderResponse.CallsAreWellFormed` | crates/intention-providers/src/generic_chat.rs:327-331 | Every call that goes out has a name that is not blank and an object document as arguments |
| `ProviderStream.SameFragmentsSameCalls` | crates/intention-providers/src/generic_chat.rs:237-301 | Two completed responses with the same fragments for every call emit the same calls, however the calls were interleaved |
| `ProviderStream.NormalizedStream.Next` | crates/intention-providers/src/stream.rs:116-140 | A poll delivers the next queued item, or nothing once the terminal item was taken; nothing queued is skipped |
| `ProviderStream.NormalizedStream.Poll` | crates/intention-providers/src/stream.rs:128-138 | What was read of the native stream determines what was queued |
| `ProviderStream.EventQueue.Push` | crates/intention-providers/src/stream.rs:53-58 | Nothing is queued behind a terminal item |
| `ProviderStream.EventQueue.Fail` | crates/intention-providers/src/stream.rs:67-73 | The first failure ends the stream; a later one leaves no trace |
| `ProviderStream.GenericTranslator.AcceptChunk` | crates/intention-providers/src/generic_chat.rs:163-235 | One chunk leaves an open stream that passed on everything but the calls, or a stream failed for a reason the chunk explains |
| `ProviderStream.GenericTranslator.AcceptUsage` | crates/intention-providers/src/generic_chat.rs:193-214 | The first usage summary is authoritative, a repeat is dropped, and one that does not add up fails the stream |
| `ProviderStream.GenericTranslator.AcceptDelta` | crates/intention-providers/src/generic_chat.rs:237-258 | A delta leaves the stream linked to everything seen with it, reasoning before the answer it informs, and a conflicting call fragment is reported; which text that is, `ProviderResponse.ResponseIsTold` says |
| `ProviderStream.GenericTranslator.AcceptReasoning` | crates/intention-providers/src/generic_chat.rs:274-285 | All reasoning text is passed on; an empty value is announced once for a stream |
| `ProviderStream.GenericTranslator.AcceptCalls` | crates/intention-providers/src/generic_chat.rs:251-256 | The fragments kept are the merge of those that arrived, and a reported conflict is a real one |
| `ProviderStream.GenericTranslator.AcceptChoices` | crates/intention-providers/src/generic_chat.rs:218-234 | Choices are read in order up to the first conflict or second finish reason |
| `ProviderStream.GenericTranslator.CollectCalls` | crates/intention-providers/src/generic_chat.rs:288-292 | All calls are complete and become one call each, or none does |
| `ProviderStream.GenericTranslator.Finish` | crates/intention-providers/src/generic_chat.rs:287-301 | A finished response emits its calls in key order and then the finish, or one failure and no call |
| `ProviderStream.GenericTranslator.NativeEnded` | crates/intention-providers/src/generic_chat.rs:153-159 | The native end finishes a response that recorded a finish reason and fails one that did not |
| `ProviderStream.CompleteCall` | crates/intention-providers/src/generic_chat.rs:327-331 | A call is emitted if and only if it is identified, named and has object-shaped arguments |
| `ProviderStream.NoFailureOfACompleteResponse` | crates/intention-providers/src/generic_chat.rs:163-301 | Whatever failure is reported, the response was not complete |
| `ProviderStream.FailedStays` | crates/intention-providers/src/generic_chat.rs:163-235 | A failed stream stays explained, and its facts a beginning of the provider's, whatever else the provider sends |
| `ProviderStream.FailuresStay` | crates/intention-providers/src/generic_chat.rs:163-235 | What a failure names stays true however the provider goes on |
| `ProviderStream.UsageOnlyChunksSayNothing` | crates/intention-providers/src/generic_chat.rs:164-191 | A chunk that carries only usage behind the finish reason adds no text and no call |
| `ProviderStream.FactKeepsOrder` | crates/intention-providers/src/model.rs:728-757 | A non-terminal fact behind an open, ordered stream is one the order validator accepts |
| `ProviderStream.TerminalKeepsOrder` | crates/intention-providers/src/model.rs:728-757 | A terminal item behind an open, ordered stream closes it in order |
| `CancellationSignal.NoLostWakeup` | crates/intention-providers/src/model.rs:759-882 | With any number of futures, cancels and resets interleaved step by step, once the flag is on and the cancels that turned it on have returned, every future whose last poll answered pending has been woken since that poll began |
| `CancellationSignal.SleepersCanBeFound` | crates/intention-providers/src/model.rs:759-882 | A future that sleeps un-woken while nobody cancels is registered and the flag is off, so the next winning cancel reaches it |
| `CancellationSignal.WaiterIdsAreUnique` | crates/intention-providers/src/model.rs:838-849 | In every run each waiter is listed once and no two futures share a number |
| `CancellationSignal.EveryRunIsHeard` | crates/intention-providers/src/model.rs:759-882 | Every step of every schedule keeps each waiting future reachable by a cancel |
| `CancellationSignal.RecheckIsHeard` | crates/intention-providers/src/model.rs:850-855 | A second look leaves every future reachable: the one that goes to sleep had its waiter registered before it saw the flag off |
| `CancellationSignal.RegistrationCanComeTooLate` | crates/intention-providers/src/model.rs:834-855 | Without that second look a wakeup would be lost: a whole cancel can pass between a poll's first look and its registration |
| `CancellationSignal.RegisterIsHeard` | crates/intention-providers/src/model.rs:843-849 | Registering one future takes no other future's waiter away |
| `CancellationSignal.TakeIsHeard` | crates/intention-providers/src/model.rs:794-799 | Taking the waiters moves each of them into the cancel's own list |
| `CancellationSignal.WakeNextIsHeard` | crates/intention-providers/src/model.rs:800-802 | Waking one waiter wakes every future it stood for |
| `CancellationSignal.DropIsHeard` | crates/intention-providers/src/model.rs:858-868 | Dropping a future forgets only its own waiter |
| `CancellationSignal.ReplaceKeepsTheOthers` | crates/intention-providers/src/model.rs:870-878 | Registering keeps one waiter for each number: the given one, with the new waker, and all others as they were |
| `CancellationSignal.RemoveKeepsTheOthers` | crates/intention-providers/src/model.rs:880-882 | Removing a number leaves exactly the waiters of the other numbers |
| `CancellationPolls.ReadyIffALookSawTheFlag` | crates/intention-providers/src/model.rs:834-855 | Over every schedule a future answers ready if and only if its latest action was a look, first or second, while the flag was on |
| `CancellationPolls.FuturesStandByTheSchedule` | crates/intention-providers/src/model.rs:834-868 | Every future of every schedule stands where the schedule alone puts it - pending behind a second look with the flag off - under the waker of its latest poll, and was woken only by a canceller at work since that poll began |
| `CancellationPolls.TheFlagIsTheLatestWord` | crates/intention-providers/src/model.rs:788-812 | The flag is on if and only if a cancel came behind which no reset came, and each turning-on has exactly one canceller |
| `CancellationPolls.NothingHappensWithoutACancel` | crates/intention-providers/src/model.rs:788-855 | In a schedule without a cancel no future is ready and none is woken |
| `CancellationPolls.AQuietLookSleeps` | crates/intention-providers/src/model.rs:843-855 | A poll whose second look finds the flag off ends pending, and registered unless a canceller took the waiters since it registered - and then it was woken or is about to be |
| `CancellationPolls.RegisteredIsListed` | crates/intention-providers/src/model.rs:838-849 | Whoever registered in its latest poll and was not taken since is in the vector, under that poll's waker |
| `SnapshotBudget.BoundedSnapshotMessages` | crates/intention-daemon/src/composition.rs:609-626 | The kept rows are the longest newest suffix within the byte budget, always with the newest row; two or more rows and the projection together never exceed the snapshot's bound; and it fails if and only if a row that must be measured for that cannot be encoded |
| `SnapshotBudget.SuffixesOfServableAreServable` | crates/intention-daemon/src/composition.rs:614-622 | Fitting is monotone, so stopping at the first row that does not fit misses nothing |
| `SnapshotBudget.OnlyALoneRowMayExceed` | crates/intention-daemon/src/composition.rs:609-626 | The budget is exceeded only by a newest row served alone |
| `SnapshotBudget.ServedWithinTheBound` | crates/intention-daemon/src/composition.rs:596-626 | Two or more rows are served only within the snapshot's own bound, the projection's bytes included |
| `SessionClient.SessionStreamState.ApplyFrame` | crates/intention-client/src/lib.rs:839-845 | A frame of another session changes nothing; any other leaves exactly the declared view and reports what changed in it; every epoch read before stays answerable |
| `SessionClient.SessionStreamState.ApplyContent` | crates/intention-client/src/lib.rs:847-871 | The transcript becomes the newest rows with the new one, and a committed assistant row takes the step it supersedes |
| `SessionClient.OnlyRowsReachTheTranscript` | crates/intention-client/src/lib.rs:839-905 | Over any frames the transcript is the one the committed rows alone make: no status and no transient text ever touches it |
| `SessionClient.AStepStreamsAndIsSuperseded` | crates/intention-client/src/lib.rs:847-905 | While a step streams, each channel shows exactly the concatenation of what arrived on it, and the committed answer clears both and takes the step's name |
| `SessionClient.AnEndedRunShowsNoText` | crates/intention-client/src/lib.rs:958-976 | A status frame shows its run and nothing else changes, but a terminal one ends the transient text of both channels, and no row brings it back |
| `SessionClient.TextOfOtherRunsIsIgnored` | crates/intention-client/src/lib.rs:873-905 | Text of any other run than the one shown changes nothing and reports nothing |
| `SessionClient.UpdatesAreTrue` | crates/intention-client/src/lib.rs:839-976 | What a frame reports is what it changed: a new row exactly when the transcript is another one, a new run exactly when the projection is, new text under the step it names |
| `SessionClient.SessionStreamState.AppendRow` | crates/intention-client/src/lib.rs:914-956 | One append moves the epoch by one and marks it; an append that drains the front moves it once more and starts a new append-only run |
| `SessionClient.SessionStreamState.Reconcile` | crates/intention-client/src/lib.rs:738-760 | A read of this session merges by row identity, ends the append-only run and keeps the identities of retained rows; a read of another session changes nothing |
| `SessionClient.SessionStreamState.FromSnapshot` | crates/intention-client/src/lib.rs:716-726 | A snapshot read holds the newest rows of the snapshot, remembers no other transcript and answers no epoch before its own |
| `SessionClient.SessionStreamState.AppendedSince` | crates/intention-client/src/lib.rs:808-814 | An answer of n for an epoch read earlier means that the transcript of that moment is today's without its last n rows |
| `SessionClient.SessionStreamState.ApplyTextDelta` | crates/intention-client/src/lib.rs:873-905 | Text of another run changes nothing; text of another step replaces both buffers; otherwise it grows its own channel alone |
| `SessionClient.SessionStreamState.ApplyStatus` | crates/intention-client/src/lib.rs:958-976 | A status replaces the projection, and a terminal one ends the transient text |
| `SessionClient.SessionStreamState.EndStream` | crates/intention-client/src/lib.rs:823-825 | A stream that ended leaves no transient text and keeps every committed row, the projection and the epochs |
| `SessionClient.SessionStreamState.RowsBehind` | crates/intention-client/src/lib.rs:770-779 | The rows behind a mark are a suffix of the transcript: on ascending rows exactly those with a later identity |
| `SessionClient.SessionStreamState.SupersededStep` | crates/intention-client/src/lib.rs:788-797 | Only a retained row names a superseded step |
| `SessionClient.SupersessionsAfterRow` | crates/intention-client/src/lib.rs:853-864 | A new assistant row names the step it became, no other row's name changes, and dropped rows have none |
| `SessionClient.PruningForgetsOnlyDroppedRows` | crates/intention-client/src/lib.rs:948-956 | An identity is forgotten exactly when its row is |
| `SessionClient.MarksAreCounted` | crates/intention-client/src/lib.rs:808-814 | On consecutive marks the partition point is the distance from the base |
| `TranscriptRows.ReconcileKeepsTheNewestOfTheUnion` | crates/intention-client/src/lib.rs:738-760 | Reconciling ascending reads of one transcript yields the newest 256 rows of their union in durable order |
| `TranscriptRows.ReconcileIsCommutative` | crates/intention-client/src/lib.rs:738-760 | Which of two reads came first does not matter for the rows |
| `TranscriptRows.ReconcileAgain` | crates/intention-client/src/lib.rs:738-760 | Reconciling with a further read yields the newest rows of all three, whatever was dropped in between; with a repeated read this is idempotence |
| `TranscriptRows.TheTranscriptIsTheNewest` | crates/intention-client/src/lib.rs:847-871 | A client that follows later rows always holds the newest 256 of what it read and followed |
| `TranscriptRows.EachRowIsReportedOnce` | crates/intention-client/src/lib.rs:770-779 | A caller that asks for the rows behind its newest reported one after every frame reports each committed row exactly once and in order, across front drains |
| `TranscriptRows.OnlyTheNewRowIsBehind` | crates/intention-client/src/lib.rs:770-779 | Behind the newest reported row there is exactly the row just appended |
| `HostBroadcast.Host.Broadcast` | crates/intention-daemon/src/lib.rs:581-620 | Every subscriber of the session is offered the message once, whatever is removed meanwhile; who cannot take it is told to end and leaves; nobody else's queue or list is touched |
| `HostBroadcast.Host.RegisterSubscriber` | crates/intention-daemon/src/lib.rs:670-733 | The reply is queued before the registration stands, with the snapshot's newest row as watermark; a refused attempt changes no list |
| `HostBroadcast.Host.HasSubscribers` | crates/intention-daemon/src/lib.rs:626-630 | A session is known exactly while someone is listed under it, because an empty list is never kept |
| `HostBroadcast.TakeRegistration` | crates/intention-daemon/src/lib.rs:985-1008 | The backward in-place walk leaves the list without the one connection and reports whether it was there |
| `HostBroadcast.Host.RemoveSubscriber` | crates/intention-daemon/src/lib.rs:639-652 | Removes that connection's registration from that session and nothing else |
| `HostBroadcast.SubscriptionGuard.Subscribe` | crates/intention-daemon/src/lib.rs:1219-1247 | A connection is registered under at most one session, and a refused re-subscribe leaves the one it had |
| `HostBroadcast.SubscriptionGuard.Clear` | crates/intention-daemon/src/lib.rs:1249-1261 | After it the connection is registered nowhere; doing it twice changes nothing more |
| `HostBroadcast.BroadcastOnlyRemoves` | crates/intention-daemon/src/lib.rs:581-620 | A message never registers anybody, so no connection's guard is ever outdone by a broadcast |
| `HostBroadcast.WithoutRemovesOnlyThat` | crates/intention-daemon/src/lib.rs:985-1008 | Taking one connection's registration leaves every other subscriber of the list |
| `HostBroadcast.SwapRemoveTakesOne` | crates/intention-daemon/src/lib.rs:590-616 | Removing by swapping with the last skips nobody still to be offered the message |
| `Replication.EachRowIsSentOnce` | crates/intention-daemon/src/lib.rs:581-733 | For every interleaving of commit, publish, register and drain, with at most one row unpublished at registration a subscriber is sent every row from its snapshot's first on, each once, in order and without a gap, up to the newest published one while it is open |
| `Replication.OrderedIffAtMostOneUnpublished` | crates/intention-daemon/src/lib.rs:60-81 | The condition is exact: once something was published to it, a subscriber's rows ascend if and only if at most one row was unpublished when it registered |
| `Replication.ABatchCanBeShownTwice` | crates/intention-engine/src/runtime.rs:932-945 | A batch committed before it is published row by row can reach a client twice, and the client then shows both rows twice |
| `Replication.ReplyPrecedesFrames` | crates/intention-daemon/src/lib.rs:656-733 | The reply is the first message of a subscription and only frames follow it, in queue order; an overflowed subscription is told to end instead of skipping |
| `Replication.TheReplicaIsTheNewestOfTheLog` | crates/intention-client/src/lib.rs:847-871 | However far a client has read its stream, its transcript is the newest 256 rows of the log from its snapshot's first row up to some row, none missing |
| `Replication.TheHostOffersTheSame` | crates/intention-daemon/src/lib.rs:581-620 | A broadcast of the registry leaves a subscriber's queue, watermark and listing exactly as the protocol's step does |
| `Replication.TheHostRegistersTheSame` | crates/intention-daemon/src/lib.rs:670-733 | A registration of the registry leaves the connection's queue and the session's list exactly as the protocol's step does: the reply queued, the connection listed once with its snapshot's watermark, or nothing listed anew |
| `Replication.ASnapshotCanRegister` | crates/intention-daemon/src/composition.rs:331-337 | The rows a snapshot serves are a newest suffix of the log with its newest row, as the registration step demands |
| `Replication.SuppressedIffRepeated` | crates/intention-daemon/src/lib.rs:594-602 | The watermark suppresses a frame exactly when it repeats the newest row of the snapshot |
| `Replication.EveryRunKeeps` | crates/intention-daemon/src/lib.rs:581-733 | Every step of every schedule keeps the subscriber's stream in step with the log |
| `TextDeltas.PublishedIsAPrefix` | crates/intention-daemon/src/lib.rs:866-953 | The text published for one step and channel is, on non-whitespace characters, a prefix of what the step streamed on it while somebody followed |
| `TextDeltas.EveryFrameIsWellFormed` | crates/intention-daemon/src/lib.rs:866-953 | Every published frame carries non-blank text of one step and channel and at most 8 KiB |
| `TextDeltas.NoTextBehindItsRow` | crates/intention-daemon/src/lib.rs:1048-1058 | No text of a step is published behind that step's committed row |
| `TextDeltas.NothingWaitsBehindTheRun` | crates/intention-daemon/src/lib.rs:896-901 | Once the run returned, its windows are empty for good |
| `TextDeltas.DroppedIffOverflowed` | crates/intention-daemon/src/lib.rs:926-954 | Over every script in order, a window is dropped if and only if its step once offered more on that channel since the last flush or row than one frame may carry; otherwise it holds all of that text |
| `TextDeltas.TextIsPublishedWhole` | crates/intention-daemon/src/lib.rs:866-954 | A step that never offered more than the bound between two flushes is published whole, up to whitespace, by the first flush or row behind its text, and stays so |
| `TextDeltas.AllIsOffered` | crates/intention-daemon/src/lib.rs:926-931 | With a subscriber throughout, what was offered is all that was streamed |
| `TextDeltas.RunTextDeltas.TextDelta` | crates/intention-daemon/src/lib.rs:926-954 | The in-place window is the declared one, of which `DroppedIffOverflowed` says when text may be dropped; text nobody follows leaves it alone |
| `TextDeltas.RunTextDeltas.Flush` | crates/intention-daemon/src/lib.rs:866-890 | Each window's text is published once, reasoning first, and the windows are left empty |
| `TextDeltas.RunTextDeltas.ObserveContent` | crates/intention-daemon/src/lib.rs:1048-1058 | Pending text goes out strictly before the committed row |
| `TextDeltas.RunTextDeltas.Finish` | crates/intention-daemon/src/lib.rs:896-901 | Unpublished text is discarded with the run |
| `RunDeltas.EveryRunSpeaksInOrder` | crates/intention-engine/src/runtime.rs:1068-1083 | In every orderly run no text of a model step comes behind that step's row or behind a later step's |
| `RunDeltas.PublicationFollowsTheRun` | crates/intention-daemon/src/lib.rs:866-1058 | So for every run, however flushes fall between, nothing of a step is published behind its row, and what is published of a step is a prefix of what it streamed while somebody followed |
| `RunDeltas.FollowersSawTheAnswer` | crates/intention-daemon/src/lib.rs:866-1058 | For every run followed throughout: when the row of an answer is out, the text published for its step is, up to whitespace, exactly the row's text, unless the step streamed more than the bound between two flushes |
| `DependencyCycles.CheckWorkspaceDependencyCycles` | quality/check_architecture.py:194-216 | Reports something if and only if the production graph has a cycle, self-loops included; every report is a cycle of edges; and no cycle escapes: each goes along an edge with which some report ends, so that without those edges the finish order lists every package after its dependencies |
| `DependencyCycles.ProductionGraph` | quality/check_architecture.py:178-191 | Edges are exactly the non-development dependencies between workspace packages |
| `DependencyCycles.FinishOrderExcludesCycles` | quality/check_architecture.py:194-216 | A finish order that accounts for every edge leaves no cycle without a reported closing edge, and none at all when nothing was reported |
| `DependencyCycles.PathsFall` | quality/check_architecture.py:194-216 | Along every path without a reported closing edge the finish position falls, whatever the path's length |
| `DependencyCycles.CycleCheck.Visit` | quality/check_architecture.py:200-211 | A visit finishes its package and leaves the stack - always exactly the visiting packages, in path order - as it was |
| `DependencyCycles.CycleCheck.FollowAll` | quality/check_architecture.py:203-209 | Following every edge of a package leaves the stack as it was, with every dependency finished or its edge reported |
| `DependencyCycles.CycleCheck.Follow` | quality/check_architecture.py:203-209 | Following an edge visits, reports or skips so that the dependency is finished first or a report ends along that edge |
| `DependencyCycles.CycleCheck.Report` | quality/check_architecture.py:206-209 | A reported stack slice closed by its first package is a cycle that ends along the edge just followed |
| `DependencyCycles.ClosingEdgeMakesACycle` | quality/check_architecture.py:206-209 | An edge back into the stack closes a cycle of edges |

## Left out

- Storage: SQLite and the storage crate are an abstract log whose append and status writes may fail, whose consumption of pending turns is all or nothing, and which refuses a status that is not a declared successor.
- Sockets, framing, timers, process start and shutdown: a timeout, a cancel and a connection's end are environment events.
- Decoding and wire types: JSON object validation and a row's encoded size are parameters, and request translation into provider types is not modelled.
- The other provider adapter, HTTP error classification and the tool effects: a native error carries whether it is retryable; a tool port that replies has committed the call's row and its result's row, and one that breaks has committed none, one or both.
- Weak memory: atomics and mutexes are sequentially consistent; a poisoned lock is treated like a healthy one.
- RunExecutor.RunCancellation.Reset: a cancel and a reset of the run's shared handle are one step each; with a reset between the stores of one cancel, one signal could owe two notices.
- RunExecutor.RunExecution.WaitForFact: what the host did between two looks at the handle is dated to the second look, and several cancels between two looks are one.
- RunExecutor.Execute: says nothing about the finish reason and error text stored beside the terminal status; a run observed only in part returns `Unfinished`.
- RunExecutor.ToolRoundCounterNeverDecides: the 8-bit counter is modelled as wrapping, where a build with overflow checks would stop instead.
- Replication.EachRowIsSentOnce: assumes that the rows of one session are published in the order of their commits, one at a time (`Publish` always takes the next committed row); two publishers that overtake each other are outside the protocol.
- RunReplay.RunsReplayInPairs: a run's log holds the rows of one run; the user rows that admission commits before it are any rows in `PairedIffNoCallsCollide`.
- Machine integers: token counts, epochs, waiter numbers and character counts are unbounded; only the snapshot budget and the estimate model saturation.
- CancellationSignal.NoLostWakeup: a safety statement; that a scheduler runs a woken task is outside the model, and two wakers wake the same task exactly when they are equal.
- TextDeltas.PublishedIsAPrefix: speaks of the text streamed while somebody followed - without a subscriber the code drops text on purpose; that steps stream in order is proved of the executor in `RunDeltas`.
- TranscriptRows.EachRowIsReportedOnce: the library's binary search is the first index behind an identity, which is the same on ascending rows.
- SessionClient.SessionStreamState.ApplyTextDelta: the client checks only the run of a delta, so transient text behind a terminal status is possible and nothing here denies it.
- HostBroadcast.Host.Broadcast: the subscribers of a session are read and written back as one value inside the critical section, not element by element.
- Execution recording, run registration and shutdown draining of the host, data-object getters, string round trips, configuration ranges and theme settings: nothing that another property needs.
- The other quality scripts: file scanning and process glue.
