# Vestigo: verified models of the algorithmic core

A Dafny model of the parts of Vestigo whose correctness is not visible from one
function body: the rank-correlation arithmetic, the single-flight guard around an
assistant's tool calls, the sliding context window, the schema slimmer, field grouping
and marker clustering, the event-stream reader, the filter round trips, the throughput
filter, the bucket grid and the job store. `dafny verify dfyconfig.toml` checks all of it.

| file | models | main results |
|---|---|---|
| `PairCounting.dfy` | counting related index pairs | permutation and concatenation laws, `CountPairs` is a cardinality |
| `KendallTau.dfy` | `stats.py`, tau-b by Knight's method | the sort-based S is the all-pairs sum; the merge sort counts inversions; tau is in [-1, 1] |
| `RequestGuard.dfy`, `GuardProtocol.dfy`, `GuardResults.dfy` | `runtime.py`, the per-request tool guard | single flight, true back-references, no deadlock, bounded runs, exact accounts, in every interleaving |
| `ContextWindow.dfy`, `WindowProofs.dfy`, `WindowEstimates.dfy`, `WindowPromises.dfy`, `WindowLimits.dfy`, `WindowRecord.dfy` | `window.py` | legal conversations stay legal, what survives, oldest first and first fit, drift of the running estimate, when the last turn is spared, no pass does more than it takes or gives up early, the recorded row |
| `JsonSchema.dfy`, `SchemaSlim.dfy`, `SlimProofs.dfy`, `SlimTwice.dfy`, `SlimUntamed.dfy`, `SlimResult.dfy` | `schema_slim.py` and a small validator | slimming keeps meaning; what is gone and what stays; when slimming twice is slimming once |
| `UnionFindForest.dfy`, `FieldSuggest.dfy` | `fieldSuggest.ts` | groups are exactly the connected components; what a group can mix; compression moves no root |
| `MarkerCluster.dfy` | `markerCluster.ts` | greedy clustering uses the fewest clusters; what each shows |
| `EventStream.dfy` | `agent.ts`, the stream reader | independent of how the text is cut into chunks; inverse of the server's framing |
| `CommaLists.dfy`, `FilterState.dfy`, `SavedViews.dfy` | `queryParams.ts`, `effectiveFilters.ts`, `agent.ts` | round trips through the URL, a saved view and a finding, each with its exact condition |
| `Eta.dfy` | `eta.py` | the filter settles; the ETA stays between the extremes |
| `Buckets.dfy` | `_buckets.py` | every instant in exactly one bucket; counts add up; bounded grid |
| `Jobs.dfy` | `jobs.py` | retention over whole runs |

Code that changes state is modelled as classes and methods with loops, each proved
against a specification function; the properties are lemmas about that function. The
asynchronous guard is a transition system whose steps are the stretches between two
awaits, in any interleaving; the class `RequestGuard.Guard` runs the same stretches.

## Where the code and its documentation differ

- `src/vestigo/agent/window.py:22-24` says that the last user turn is never elided. The
  code protects the last request only (line 329), and the first result of a last turn with
  two tool exchanges goes out stubbed (`WindowPromises.LastTurnGoesOutElided`). The turn is
  left alone exactly when it holds nothing eligible, or stubbing everything eligible before
  it already fits (`WindowPromises.LastTurnIsSparedExactlyWhen`).
- `src/vestigo/agent/window.py:437-454` can enlarge a history: the marker may be longer
  than the turns it replaces, as in a chat with a short middle turn
  (`WindowPromises.ChatGrows`). Dropping turns enlarges exactly then
  (`WindowEstimates.DroppingGrowsExactlyWhen`, `WindowPromises.ProseGrowsExactlyWhen`).
- `src/vestigo/agent/window.py:464-466` promises a history that does not fit "as reduced as
  the invariants allow". The loop that drops turns does not reckon with the marker it then
  adds: it can stop one turn short and leave the estimate over budget with turns to spare
  (`WindowLimits.MarkerIsNotReckonedWith`, `WindowLimits.ATurnTooMany`). Of a history still
  over budget, a droppable turn is left exactly when fewer than all of them were enough
  without the marker; of everything else the promise holds
  (`WindowLimits.WindowGivesUpOnlyWhen`).
- `src/vestigo/core/eta.py:35` gives the limit of the gain as `Q / (Q + sqrt(Q² + 4QR))`
  and line 36 evaluates it to ½. For these constants it is ¼
  (`Eta.ClosedFormIsNotTheLimit`); the recurrence itself tends to ½
  (`Eta.RunSettles`, `Eta.SteadyState`).
- `frontend/src/lib/fieldSuggest.ts:130` says that `src_ip` never merges with `dst_ip`.
  That holds for pairs (`FieldSuggest.ConflictIsNoPair`). A field without a direction
  joins both (`FieldSuggest.ConflictCanShareAGroup`): groups mix directions exactly when
  two fields of conflicting directions are joined by a chain of fields without one
  (`FieldSuggest.GroupsMixExactlyWhen`). The same goes for value shapes and fields of unknown
  shape (`FieldSuggest.ShapesMixExactlyWhen`).
- `src/vestigo/core/jobs.py:59-61` promises that queued and running jobs are never
  evicted. `update` lets a finished job run again (lines 112-117) without taking it off
  the finish order, and then it can be evicted while running
  (`Jobs.ReopeningLosesARunningJob`, `Jobs.ReopenedJobIsEvicted`). An unfinished job is
  gone exactly when it was reopened and one of its endings has been cut
  (`Jobs.UnfinishedIsGoneExactlyWhen`); without reopening the promise holds
  (`Jobs.PromiseWithoutReopening`).
- `src/vestigo/agent/runtime.py:394-456` assumes that the calls of one step do not overlap
  the next. Over all interleavings, two calls of one step and key can both run the tool
  exactly when some call belongs to another step
  (`GuardResults.SingleFlightPerStepFailsExactlyWhen`); what the identity test on line 427
  still guarantees is `GuardResults.LateFailureKeepsMarkers`.
- `src/vestigo/agent/schema_slim.py:118-120` lets the `required` beside a null union win
  over the one of the surviving arm, so that a second slimming can collapse, or raise on, a
  property that the first one had to keep (`SlimUntamed.UntamedSlimsTwice`). At an object
  whose parts are settled, the second slimming changes nothing exactly unless the arm
  supplies `properties`, the object supplies `required` and not `properties`, and some
  property that the arm requires and the object does not is still such a union
  (`SlimTwice.ObjectStaysExactlyWhen`).

## Model

| member | source | states |
|---|---|---|
| PairCounting.CountPairsIsCardinality | src/vestigo/stats.py:267-268 | The recursive count of related pairs is the size of the set of index pairs `i < j` that are related. |
| PairCounting.PairsPerm | src/vestigo/stats.py:260-264 | A symmetric relation has as many related pairs in every ordering of the points, so sorting changes no tie or concordance count. |
| PairCounting.PairsConcat | src/vestigo/stats.py:285-301 | The pairs of a concatenation are those inside each half and those across. |
| PairCounting.CountPairsBound | src/vestigo/stats.py:234 | At most n(n-1)/2 pairs are related, and that many exactly when every pair is. |
| KendallTau.SignSumIsDifference | src/vestigo/stats.py:252 | The all-pairs sum of products of signs is concordant minus discordant pairs. |
| KendallTau.PairPartition | src/vestigo/stats.py:224-226 | Concordant, discordant and tied pairs make up all pairs, joint ties counted twice. |
| KendallTau.KnightIdentity | src/vestigo/stats.py:264 | S equals n0 - n1 - n2 + n3 - 2D for points in any order. |
| KendallTau.SortedDiscordance | src/vestigo/stats.py:254-258 | In a row sorted by (x, y) the discordant pairs are exactly the inversions of the y-values. |
| KendallTau.SignSumBounds | src/vestigo/stats.py:237-241 | The absolute value of S is at most the pairs untied in x, and at most those untied in y. |
| KendallTau.TakeRight | src/vestigo/stats.py:290-292 | An element taken from the right half inverts exactly the rest of the left half. |
| KendallTau.TakeLeft | src/vestigo/stats.py:286-288 | An element taken from the left half, ties included, inverts nothing. |
| KendallTau.MergeRemovesCross | src/vestigo/stats.py:270-273 | Merging two sorted neighbours anywhere in a row removes exactly the inversions between them. |
| KendallTau.PassDoublesBlocks | src/vestigo/stats.py:281-303 | A pass over sorted blocks of one width leaves sorted blocks of twice the width. |
| KendallTau.PassPermutes | src/vestigo/stats.py:281-303 | A pass permutes the row. |
| KendallTau.MergeHeads | src/vestigo/stats.py:284-293 | The first inner loop merges until one side is used up and counts what it inverts. |
| KendallTau.MergeBlocks | src/vestigo/stats.py:284-301 | The three inner loops leave the merge of both blocks in the buffer and return the inversions between them. |
| KendallTau.MergeTwo | src/vestigo/stats.py:282-301 | The same, with the rest of the buffer untouched. |
| KendallTau.MergePass | src/vestigo/stats.py:281-301 | One pass leaves the merged row in the buffer and returns exactly the inversions it removed. |
| KendallTau.CountInversions | src/vestigo/stats.py:267-304 | The result is the number of index pairs `i < j` with `values[i] > values[j]`; the argument is a value and cannot change. |
| KendallTau.TieCounts | src/vestigo/stats.py:320-324 | The dictionary loop returns the multiplicities above one, in order of first occurrence. |
| KendallTau.TieSumIsTiedPairs | src/vestigo/stats.py:327-328 | The sum of c(c-1)/2 over those multiplicities is the number of tied pairs. |
| KendallTau.TiePairCount | src/vestigo/stats.py:327-328 | The result is the number of index pairs with equal values. |
| KendallTau.JointTiePairCount | src/vestigo/stats.py:307-317 | On a sorted row, the run-length loop returns the number of pairs tied in both coordinates. |
| KendallTau.SortedOrderSorts | src/vestigo/stats.py:260 | The index order is a permutation that sorts the points by (x, y). |
| KendallTau.KendallS | src/vestigo/stats.py:251-264 | The sort-based S is n0 - n1 - n2 + n3 - 2D with the true joint ties and discordant pairs, and the all-pairs sum of signs when n0, n1 and n2 are the true counts. |
| KendallTau.NoUntiedPairs | src/vestigo/stats.py:238-240 | All pairs of a sequence are tied exactly when it is constant. |
| KendallTau.KendallTauB | src/vestigo/stats.py:230-241 | No tau for fewer than three pairs, nor exactly when one of the cut sequences is constant; otherwise S over the product of the two roots. |
| KendallTau.TauInUnitInterval | src/vestigo/stats.py:238-241 | Tau lies in [-1, 1] for whatever square roots are taken of the two counts. |
| RequestGuard.Guard.ResetForStep | src/vestigo/agent/runtime.py:388-392 | A new step forgets markers and bytes; the same step changes nothing. |
| RequestGuard.Guard.LoopHead | src/vestigo/agent/runtime.py:398-407 | The free slot is claimed with a fresh future, the taken one is returned, in one stretch. |
| RequestGuard.Guard.Begin | src/vestigo/agent/runtime.py:394-407 | From the call's first line to its first await. |
| RequestGuard.Guard.Resume | src/vestigo/agent/runtime.py:407-419 | After a wait: a counted back-reference to the claimant, or one more turn of the loop. |
| RequestGuard.Guard.ToolRaised | src/vestigo/agent/runtime.py:422-430 | A failure drops the marker only if it is still its own, and tells the waiters. |
| RequestGuard.Guard.ToolReturned | src/vestigo/agent/runtime.py:431-456 | A result resolves the future, and is withheld exactly when bytes are positive and the sum passes a positive ceiling; otherwise its size is added. |
| GuardProtocol.ClaimInv | src/vestigo/agent/runtime.py:400-405 | Claiming a free slot with a fresh future keeps the protocol invariant. |
| GuardProtocol.ResolveInv | src/vestigo/agent/runtime.py:420-431 | So does resolving the future of an executing call, with or without dropping its marker. |
| GuardProtocol.StepInv | src/vestigo/agent/runtime.py:394-456 | Every atomic stretch of every call keeps the invariant, whatever else is in flight. |
| GuardProtocol.RunInv | src/vestigo/agent/runtime.py:394-456 | Hence every interleaving does. |
| GuardResults.SingleFlight | src/vestigo/agent/runtime.py:380-385 | In every interleaving at most one call per key and epoch is executing or has completed without raising. |
| GuardResults.DuplicateNamesCompleted | src/vestigo/agent/runtime.py:397-417 | Every back-reference names another call with the same key that completed without raising, by that call's own id, or by the phrase if that call has none. |
| GuardResults.DuplicateNamesOwnStep | src/vestigo/agent/runtime.py:357-359 | When steps do not overlap, that call belongs to the same step. |
| GuardResults.WaiterHasOwner | src/vestigo/agent/runtime.py:406-407 | Every waiting call waits for another call with its key that is still executing or has resolved the future. |
| GuardResults.Progress | src/vestigo/agent/runtime.py:394-431 | While a call is unfinished, some call can step: no deadlock. |
| GuardResults.StepRank | src/vestigo/agent/runtime.py:398-431 | Every step lowers a measure, retries after a failure included. |
| GuardResults.RunIsBounded | src/vestigo/agent/runtime.py:398-431 | A run of n calls has at most n(n + 3) steps, so no call waits or retries forever. |
| GuardResults.RunAccounts | src/vestigo/agent/runtime.py:433-456 | The byte counter is the total size of the results emitted whole in the open epoch and, with a ceiling set, at most the larger of the ceiling and the first such result, which is some call's of that epoch; the duplicate and capped counters are the numbers of such calls. |
| GuardResults.FinishedSplit | src/vestigo/agent/runtime.py:407-456 | Finished calls split exactly into whole, withheld, duplicate and raised ones. |
| GuardResults.WithheldExactlyOverCeiling | src/vestigo/agent/runtime.py:434-439 | A result is withheld exactly when a ceiling is set, a result of positive size was emitted before it, and the sum would pass the ceiling. |
| GuardResults.SingleFlightPerStep | src/vestigo/agent/runtime.py:350-372 | When steps do not overlap, single flight holds per step and key. |
| GuardResults.BytesArePerStep | src/vestigo/agent/runtime.py:388-392 | Then the results the byte counter sums are those of the open step. |
| GuardResults.OneStepIsOrdered | src/vestigo/agent/runtime.py:388-392 | With calls of one step only, every interleaving is one without overlap. |
| GuardResults.OverlapRun | src/vestigo/agent/runtime.py:388-405 | For any two calls of one step and key and any call of another step there is a run in which both execute. |
| GuardResults.SingleFlightPerStepFailsExactlyWhen | src/vestigo/agent/runtime.py:350-405 | Some interleaving lets two calls of one step and key both hold the slot if and only if some call belongs to another step. |
| GuardResults.LateFailureKeepsMarkers | src/vestigo/agent/runtime.py:422-430 | A call that fails late drops no marker but its own, even across a reset. |
| ContextWindow.StopIsFirstFit | src/vestigo/agent/window.py:334-341 | The loops' stopping point is the first at which the running estimate fits, or the end. |
| ContextWindow.ElideParts | src/vestigo/agent/window.py:338-354 | The inner loop stubs a request's eligible results from the front, as many as it takes, and adjusts the estimate by their savings. |
| ContextWindow.Elide | src/vestigo/agent/window.py:317-355 | Pass 1 stubs the oldest eligible results outside the last request, as many as it takes. |
| ContextWindow.BoundariesAscend | src/vestigo/agent/window.py:296-307 | The boundaries ascend and each is a request with a user prompt. |
| ContextWindow.BoundariesComplete | src/vestigo/agent/window.py:296-307 | Every request with a user prompt is a boundary. |
| ContextWindow.LastRequestIs | src/vestigo/agent/window.py:310-314 | The last request is the last one, or there is none. |
| ContextWindow.CountTurns | src/vestigo/agent/window.py:426-434 | The loop counts the oldest droppable turns, as many as it takes, and subtracts their estimates. |
| ContextWindow.DropTurns | src/vestigo/agent/window.py:409-454 | Pass 2 replaces that many turns after the first by one marker pair and adds its estimate. |
| ContextWindow.TruncateNewest | src/vestigo/agent/window.py:358-406 | Pass 3 cuts the last request's full results in order while over budget, where a cut saves something. |
| ContextWindow.ApplyWindow | src/vestigo/agent/window.py:457-517 | The passes in order, each only while over budget; a history that fits is returned as it is. |
| WindowProofs.StubMessagesSame | src/vestigo/agent/window.py:8-12 | Each part after elision is the same, or a tool result whose content is now the stub; the protected message is the same. |
| WindowProofs.TruncationSame | src/vestigo/agent/window.py:358-406 | Truncation changes the last request only, and there only full results, to a leading slice of at least the minimum. |
| WindowProofs.SpliceLegal | src/vestigo/agent/window.py:13-15 | Cutting whole turns at user prompts and putting the marker in keeps roles alternating and every result paired with its call. |
| WindowProofs.WindowKeepsLegal | src/vestigo/agent/window.py:457-517 | If every result answers a call earlier in its own turn and roles alternate, both hold of the output. |
| WindowProofs.ExactlyDroppedTurnsGo | src/vestigo/agent/window.py:457-517 | The output is the input with exactly the dropped turns replaced by one marker pair, up to contents of results. |
| WindowProofs.FirstAndLastTurnsSurvive | src/vestigo/agent/window.py:418-425 | The first turn with what precedes it, and every turn after the dropped ones, are in the output, message by message up to contents of results; with fewer than three turns nothing is dropped. |
| WindowProofs.WindowKeepsAnswers | src/vestigo/agent/window.py:13-15 | A call of the output is a call of the input, and if that was answered in its own turn it still is. |
| WindowProofs.NewestChangesOnlyByTruncation | src/vestigo/agent/window.py:366-370 | The newest request is the same unless pass 3 ran, and then only its results are cut. |
| WindowEstimates.OldestAreStubbed | src/vestigo/agent/window.py:332-352 | A result is stubbed exactly when it is eligible and fewer than k eligible ones come before it. |
| WindowEstimates.ElisionStopsAtFirstFit | src/vestigo/agent/window.py:334-341 | Before each stub the running estimate was over budget; after the last it fits, unless nothing eligible is left. |
| WindowEstimates.DroppingStopsAtFirstFit | src/vestigo/agent/window.py:428-434 | The same for turns, the marker not counted. |
| WindowEstimates.TokensFloor | src/vestigo/agent/window.py:210 | The estimate is below chars over chars-per-token by less than one. |
| WindowEstimates.StubMessagesSize | src/vestigo/agent/window.py:344-351 | Elision never enlarges, and what it subtracts is within one token per stub of what it saves. |
| WindowEstimates.DroppingSize | src/vestigo/agent/window.py:437-453 | Dropping trades the turns for the marker, to the character. |
| WindowEstimates.DroppingGrowsExactlyWhen | src/vestigo/agent/window.py:437-454 | The history grows exactly when the marker is larger than the dropped turns. |
| WindowEstimates.TruncationSize | src/vestigo/agent/window.py:388-403 | Truncation never enlarges, and what it subtracts is within one token per cut of what it saves. |
| WindowEstimates.RunningEstimateIsClose | src/vestigo/agent/window.py:484-490 | The running estimate ends within one token per elision, truncation and dropped turn, and three more, of the estimate taken afresh. |
| WindowEstimates.ReductionShrinks | src/vestigo/agent/window.py:484-490 | With no turn dropped, neither size nor estimate goes up. |
| WindowEstimates.NoCountsNoChange | src/vestigo/agent/window.py:482-501 | No count means the very same messages. |
| WindowPromises.SuffixIsSparedExactlyWhen | src/vestigo/agent/window.py:317-355 | Elision leaves the messages from any point on as they are if and only if nothing in them is eligible, or stubbing everything eligible before them already fits. |
| WindowPromises.LastTurnIsSparedExactlyWhen | src/vestigo/agent/window.py:22-24 | The same for the last user turn, which the documentation calls never elided. |
| WindowPromises.LastTurnIsElided | src/vestigo/agent/window.py:329-352 | Over a tight budget, the first result of a one-turn history with two tool exchanges is stubbed. |
| WindowPromises.LastTurnGoesOutElided | src/vestigo/agent/window.py:484-489 | And it goes out stubbed, after all three passes. |
| WindowPromises.ElidedLastTurn | src/vestigo/agent/window.py:484-489 | Such a history exists: a thousand-character result in the last turn, a token over budget, goes out stubbed. |
| WindowPromises.ProseGrowsExactlyWhen | src/vestigo/agent/window.py:484-490 | The window enlarges a history without tool results if and only if it drops turns that the marker outweighs. |
| WindowPromises.SmallTalkGrowsBy | src/vestigo/agent/window.py:437-454 | A three-turn history of prose just over budget loses its middle turn and grows by what the marker's texts are longer. |
| WindowPromises.ChatGrows | src/vestigo/agent/window.py:437-454 | A concrete chat that the window enlarges, whatever the divisor. |
| WindowLimits.ElisionExhausts | src/vestigo/agent/window.py:334-352 | If the estimate is still over budget after pass 1, no result before the last request is left whose stub would cost less. |
| WindowLimits.DroppingIsExact | src/vestigo/agent/window.py:426-454 | Turns are dropped only while the estimate is over budget, and all but the first and last if it never fits; the marker is added afterwards. |
| WindowLimits.CutsAreExact | src/vestigo/agent/window.py:382-403 | A part is cut exactly if the estimate is over budget when its turn comes, it is a full result and the cut helps; then it keeps its first max(500, length less the excess in characters) characters, and the estimate goes down by what that saves. |
| WindowLimits.CutsExhaust | src/vestigo/agent/window.py:382-403 | If the estimate is still over budget after pass 3, no result is left that such a cut would make cheaper. |
| WindowLimits.EscapeIsReversible | src/vestigo/agent/window.py:392-396 | Escaping loses nothing. |
| WindowLimits.CutReadsBack | src/vestigo/agent/window.py:392-396 | What is left of a cut result is marked as truncated, not as elided, and the slice under `head` can be read back from it. |
| WindowLimits.DecimalIsRead | src/vestigo/agent/window.py:437-443 | The count is printed in decimal, without leading zeros. |
| WindowLimits.MarkerNamesTheCount | src/vestigo/agent/window.py:437-443 | The marker begins with its name and gives the number of turns dropped. |
| WindowLimits.WindowIsFrugal | src/vestigo/agent/window.py:484-489 | Over the whole window: each stub, dropped turn and cut was made with the estimate over budget, and a pass runs only if the ones before were not enough. |
| WindowLimits.WindowGivesUpOnlyWhen | src/vestigo/agent/window.py:464-466 | If the window ends over budget, no result before the newest request is left to stub, none in it is left to cut, and every turn but the first and last is gone, except exactly when fewer would have been enough without the marker. |
| WindowLimits.NewestIsCutExactly | src/vestigo/agent/window.py:484-489 | What goes out of the newest request, part by part, and the estimate the window ends on. |
| WindowLimits.MarkerIsNotReckonedWith | src/vestigo/agent/window.py:428-454 | When one turn is enough without the marker and not with it, the window stops after that turn, over budget. |
| WindowLimits.ATurnTooMany | src/vestigo/agent/window.py:428-454 | A concrete chat with two droppable turns: one is dropped, and the window gives up over budget. |
| WindowRecord.TurnStats.Process | src/vestigo/agent/window.py:540-563 | One request's row: overwritten by a larger saving, with the high-water mark and the guard's counters kept. |
| WindowRecord.OneRequestIsRecorded | src/vestigo/agent/window.py:527-532 | The reduction recorded after any run of requests and guard actions is that of one single request. |
| WindowRecord.LargestSavingIsRecorded | src/vestigo/agent/window.py:554-556 | That request has the largest saving, whenever any saving is positive. |
| WindowRecord.RecordedKeepsLargest | src/vestigo/agent/window.py:554-556 | One more request never replaces a larger saving by a smaller one. |
| WindowRecord.ReplacedExactlyWhen | src/vestigo/agent/window.py:550-557 | A request's figures replace the row's exactly when nothing was reduced or guarded before, or when they save strictly more. |
| WindowRecord.HighWaterMark | src/vestigo/agent/window.py:545-561 | The character mark is the maximum over the requests sent. |
| WindowRecord.GuardCountersSurvive | src/vestigo/agent/window.py:547-562 | The guard's counters are the numbers of its actions, whatever is overwritten. |
| SlimProofs.SlimMeaning | src/vestigo/agent/schema_slim.py:68-125 | A slimmed schema implies the original, and is equivalent where no null meets a dropped null arm. |
| SlimProofs.KeywordMeaning | src/vestigo/agent/schema_slim.py:100-111 | The same, keyword by keyword, definitions followed through references. |
| SlimProofs.CollapseMeaning | src/vestigo/agent/schema_slim.py:113-120 | Collapsing a null union beside annotations takes away null and nothing else. |
| SlimProofs.SlimSchemaKeepsMeaning | src/vestigo/agent/schema_slim.py:68-76 | `slim_schema` never admits what the full tool schema rejects, and agrees with it on instances without such nulls. |
| SlimProofs.NoStrayNullIsClean | src/vestigo/agent/schema_slim.py:82-90 | With null unions on object properties only, an instance without an explicit null on a property that is not required is such an instance. |
| SlimProofs.RequiredKeepsNull | src/vestigo/agent/schema_slim.py:82-85 | On a required property the union stays and null is admitted. |
| SlimProofs.OptionalDropsNull | src/vestigo/agent/schema_slim.py:86-88 | Elsewhere null is admitted exactly if the surviving arm admits it. |
| SlimProofs.StrippingKeepsMeaning | src/vestigo/agent/schema_slim.py:128-145 | Stripping the prose of definitions changes no verdict. |
| SlimProofs.StrippingIsExact | src/vestigo/agent/schema_slim.py:128-163 | It removes the descriptions of the properties of the named definitions, and nothing else. |
| SlimProofs.SlimToolSchemaKeepsMeaning | src/vestigo/agent/schema_slim.py:166-168 | Both together: the advertised schema admits nothing the full one rejects, and agrees with it on instances without stray nulls. |
| SlimTwice.NothingLeftToCollapse | src/vestigo/agent/schema_slim.py:113-120 | What is slimmed where unions collapse is no collapsible union itself. |
| SlimTwice.EitherWay | src/vestigo/agent/schema_slim.py:102-106 | A settled schema slimmed where unions collapse stays as it is where they do not, so a property need not be required to stay. |
| SlimTwice.StaysUnlessLoose | src/vestigo/agent/schema_slim.py:113-120 | A schema that stays where unions do not collapse stays where they do exactly unless it is itself a null union. |
| SlimTwice.ObjectStaysExactlyWhen | src/vestigo/agent/schema_slim.py:96-125 | At an object whose parts are settled, a second slimming neither raises nor changes anything if and only if no collapsed union's arm has a required property, itself a null union, that the `required` beside the union omits. |
| SlimTwice.SlimIsIdempotent | src/vestigo/agent/schema_slim.py:68-76 | Where no arm is so overridden, `slim_schema` of a slimmed schema gives that schema again. |
| SlimUntamed.UntamedSlimsTwice | src/vestigo/agent/schema_slim.py:118-120 | With an empty `required` beside such a union, slimming twice differs: a concrete schema. |
| SlimResult.SlimIsLean | src/vestigo/agent/schema_slim.py:96-125 | Slimming leaves no `title` keyword and no null default anywhere, and null unions on properties only; where no arm is overridden, on required properties only. |
| SlimResult.CollapsedIsLeanExactlyWhen | src/vestigo/agent/schema_slim.py:113-125 | At a collapsed union with a lean arm the last clause holds if and only if the `required` beside it does not override that arm. |
| SlimResult.FieldSurvives | src/vestigo/agent/schema_slim.py:100-111 | Scalar values stay, lists keep their length, maps of names keep every name. |
| SlimResult.KeywordsSurvive | src/vestigo/agent/schema_slim.py:96-125 | Every keyword but a title, a null default and a collapsed union is kept and wins over the surviving arm's; the others are that arm's, and nothing is added. |
| SlimResult.AdvertisedIsLean | src/vestigo/agent/schema_slim.py:166-168 | All that holds of what a tool advertises, and the properties of the four shared definitions have no descriptions. |
| SlimResult.AdvertisedKeeps | src/vestigo/agent/schema_slim.py:128-168 | Besides that it is the slimmed schema: all other definitions, and everything outside them, are as slimming left them. |
| SlimResult.RequiredNamesAre | src/vestigo/agent/schema_slim.py:96-97 | The required names are exactly the texts listed under `required`. |
| SlimResult.OrdinaryIsSlimmed | src/vestigo/agent/schema_slim.py:96-125 | A schema whose `required` lists hold names and whose two-armed unions have an arm that says more than null is slimmed, at any depth and whatever stands under a title; a union of two nulls and a list within `required` raise. |
| UnionFindForest.UnionFind.Find | frontend/src/lib/fieldSuggest.ts:141-147 | `find` terminates and returns the root; compression changes no root. |
| UnionFindForest.UnionFind.Union | frontend/src/lib/fieldSuggest.ts:148 | `union` joins the two classes under the second's root and leaves the others. |
| UnionFindForest.ParentsReachRoot | frontend/src/lib/fieldSuggest.ts:141-147 | Following parents from any key ends at its root: the parent map stays acyclic. |
| UnionFindForest.CompressOk | frontend/src/lib/fieldSuggest.ts:145 | Pointing a key straight at its root keeps the forest. |
| UnionFindForest.LinkOk | frontend/src/lib/fieldSuggest.ts:148 | So does hanging one root under another, with the classes joined. |
| FieldSuggest.DirectionIsFirst | frontend/src/lib/fieldSuggest.ts:116-119 | The direction is the first directional token, if any. |
| FieldSuggest.SharedTokensMeans | frontend/src/lib/fieldSuggest.ts:121-124 | The shared tokens are exactly the tokens of both that are neither generic nor directional. |
| FieldSuggest.CompatibleSymmetric | frontend/src/lib/fieldSuggest.ts:159-164 | Compatibility of two fields does not depend on their order. |
| FieldSuggest.CompatibleMeans | frontend/src/lib/fieldSuggest.ts:159-164 | Two fields are compatible if and only if they share a token that is neither generic nor directional, do not have different directions, and have one shape or one of unknown shape. |
| FieldSuggest.JoinPairs | frontend/src/lib/fieldSuggest.ts:154-168 | After the double loop the classes join exactly what the compatible pairs connect, and every pair is recorded with its shared tokens. |
| FieldSuggest.ClassesAreComponents | frontend/src/lib/fieldSuggest.ts:139-168 | Two fields are in one class exactly when they are connected. |
| FieldSuggest.CollectGroups | frontend/src/lib/fieldSuggest.ts:170-174 | Every field is listed once, under its root, roots in order of first sight. |
| FieldSuggest.ListGroups | frontend/src/lib/fieldSuggest.ts:176-186 | The classes with two or more members, each with the distinct tokens recorded inside it. |
| FieldSuggest.SuggestGroups | frontend/src/lib/fieldSuggest.ts:132-186 | The suggestions are exactly the connected components with two or more fields, each once. |
| FieldSuggest.GroupHasSharedToken | frontend/src/lib/fieldSuggest.ts:180-186 | Every group with two different keys has a shared token. |
| FieldSuggest.GroupSharedIs | frontend/src/lib/fieldSuggest.ts:180-186 | A group's shared tokens are exactly the meaningful tokens that some compatible pair of its members shares, each once. |
| FieldSuggest.DistinctMeans | frontend/src/lib/fieldSuggest.ts:180-186 | Duplicates go, first occurrences stay in order. |
| FieldSuggest.ConflictIsNoPair | frontend/src/lib/fieldSuggest.ts:161 | Fields with conflicting directions are no compatible pair. |
| FieldSuggest.ConflictCanShareAGroup | frontend/src/lib/fieldSuggest.ts:126-131 | Yet `src_ip`, `ip` and `dst_ip` are one component. |
| FieldSuggest.FindBridge | frontend/src/lib/fieldSuggest.ts:139-168 | Every path of compatible fields between two that clash, in direction or in shape, holds a stretch between clashing ends on which no other field has a direction or a known shape. |
| FieldSuggest.GroupsMixExactlyWhen | frontend/src/lib/fieldSuggest.ts:126-131 | Some group mixes directions if and only if there is such a stretch. |
| FieldSuggest.ShapesMixExactlyWhen | frontend/src/lib/fieldSuggest.ts:162 | Some group mixes known shapes if and only if two such fields are joined by a chain of fields of unknown shape. |
| FieldSuggest.ShapesMeetOnlyThrough | frontend/src/lib/fieldSuggest.ts:162 | Fields of different known shapes share a group only together with a field of unknown shape, or with two fields of one key. |
| MarkerCluster.ClusterMarkers | frontend/src/lib/markerCluster.ts:32-58 | The sweep over sorted markers, with two open clusters updated in place, returns what the specification's sweep returns. |
| MarkerCluster.SortByPctSorts | frontend/src/lib/markerCluster.ts:33 | The sorted markers ascend and are the same markers. |
| MarkerCluster.SortByPctIsStable | frontend/src/lib/markerCluster.ts:33 | Markers at one position keep the order they came in. |
| MarkerCluster.StableOrderIsUnique | frontend/src/lib/markerCluster.ts:33 | No other row ascends and has the same markers in the same order at each position. |
| MarkerCluster.StreamsAreIndependent | frontend/src/lib/markerCluster.ts:35-40 | The clusters of one stream are those of that stream swept alone. |
| MarkerCluster.GroupsCutTheStream | frontend/src/lib/markerCluster.ts:38-56 | The clusters cut the stream into consecutive pieces: no marker is lost or moved. |
| MarkerCluster.GroupsAreNarrowAndApart | frontend/src/lib/markerCluster.ts:41 | Every member is within the threshold of its cluster's first; consecutive first members are more than the threshold apart. |
| MarkerCluster.EarliestIsMinimum | frontend/src/lib/markerCluster.ts:44 | The cluster's time is that of its earliest member. |
| MarkerCluster.ClustersShowTheStream | frontend/src/lib/markerCluster.ts:32-58 | The clusters of a stream describe consecutive groups of its markers, in order of position and, at one position, of input: place and kind of the first, earliest time, the titles of the first five, the number. |
| MarkerCluster.GreedyIsOptimal | frontend/src/lib/markerCluster.ts:2-9 | No grouping of a stream into groups no wider than the threshold has fewer groups. |
| MarkerCluster.ClusteringIsOptimal | frontend/src/lib/markerCluster.ts:32-58 | Hence the clusters drawn for each stream are the fewest possible. |
| EventStream.SplitAppend | frontend/src/api/agent.ts:486-492 | Later text completes the tail and leaves finished frames alone. |
| EventStream.DrainBuffer | frontend/src/api/agent.ts:488-501 | The inner loops hand on the data lines of all finished frames and keep the tail. |
| EventStream.FrameData | frontend/src/api/agent.ts:493-499 | The loop over a frame's lines hands on exactly its data lines, in order. |
| EventStream.ReadStream | frontend/src/api/agent.ts:480-502 | For every way of cutting a text into chunks, the payloads are those of the whole text split at blank lines, the unfinished tail discarded. |
| EventStream.SplitIsComplete | frontend/src/api/agent.ts:488-492 | Frames, separators and tail make up the text; each frame ends at the first blank line. |
| EventStream.SplitIsUnique | frontend/src/api/agent.ts:488-492 | No other cut of the text does that. |
| EventStream.FrameRoundTrip | frontend/src/api/agent.ts:493-495 | A frame of any lines, split at line breaks, gives back the payloads of its data lines and nothing for the others. |
| EventStream.ConcatJoins | frontend/src/api/agent.ts:486 | The text read is the chunks joined in order. |
| EventStream.StreamRoundTrip | frontend/src/api/agent.ts:480-502 | Reading frames of any lines, cut into any chunks and followed by any unfinished tail, yields exactly the payloads of their data lines; the server sends one such line a frame. |
| CommaLists.ListRoundTrip | frontend/src/lib/queryParams.ts:149-151 | A non-empty list survives joining and parsing exactly when its entries are trimmed, non-empty and free of commas. |
| FilterState.SanitizeModes | frontend/src/lib/queryParams.ts:12-19 | The loop keeps exactly the two known modes, and an empty result is absent. |
| FilterState.SanitizeValueMap | frontend/src/lib/queryParams.ts:26-38 | The loop keeps strings as one-element lists and the strings of lists, dropping what is empty. |
| FilterState.ValueMapRoundTrip | frontend/src/lib/queryParams.ts:26-38 | A non-empty value map survives exactly when it holds no empty list. |
| FilterState.ModeMapRoundTrip | frontend/src/lib/queryParams.ts:12-19 | A non-empty mode map survives. |
| FilterState.SanitizedValues | frontend/src/lib/queryParams.ts:26-38 | Of any value: a key is kept if and only if it holds a string or a list with a string; a string becomes a one-element list, a list keeps its strings; an empty map is absent. |
| FilterState.LegacyValues | frontend/src/lib/queryParams.ts:23-33 | The legacy shape with one string a key is read as one-element lists. |
| FilterState.SanitizedOnce | frontend/src/lib/queryParams.ts:26-38 | Sanitizing what was sanitized changes nothing. |
| FilterState.SanitizedModes | frontend/src/lib/queryParams.ts:12-19 | Of any value: a key is kept if and only if it holds one of the two mode names. |
| FilterState.FiltersToParams | frontend/src/lib/queryParams.ts:143-182 | Setting one parameter after the other leaves exactly the parameters of the fields that hold something. |
| FilterState.ParamsToFilters | frontend/src/lib/queryParams.ts:184-257 | Reading one field after the other yields the filter state the parameters describe. |
| FilterState.UrlRoundTrip | frontend/src/lib/queryParams.ts:143-257 | A filter state survives the URL, session fields aside, if and only if the URL can carry it. |
| FilterState.UrlSettles | frontend/src/lib/queryParams.ts:143-257 | Whatever the URL holds, reading, printing and reading again gives the same state if and only if no list came out empty. |
| FilterState.NothingEmptyIsPrinted | frontend/src/lib/queryParams.ts:143-182 | No empty text and no empty map is printed, save for a list that holds one empty text. |
| FilterState.ReadModes | frontend/src/api/agent.ts:359-366 | The helper keeps exactly the two known modes. |
| FilterState.SpecToEventFilters | frontend/src/api/agent.ts:358-388 | A finding's fields, one after the other, with empty ones absent. |
| FilterState.FindingIsTakenOver | frontend/src/api/agent.ts:358-388 | A finding without empty fields is taken over field by field; a match mode exactly if it is known. |
| FilterState.OverlaysMerge | frontend/src/lib/effectiveFilters.ts:43-65 | Which overlay changes which field and when; all others stay, and without overlays everything does. |
| FilterState.ApplyingLosesNothing | frontend/src/lib/effectiveFilters.ts:43-81 | Mapping a finding, printing it to the URL, parsing it back and merging the overlays gives the very filters the agent ran, if and only if the finding is canonical and, under a running semantic search, lists the events itself. |
| SavedViews.ViewRoundTrip | frontend/src/lib/queryParams.ts:264-345 | A filter state survives a saved view, session fields aside, if and only if a view can hold it; commas are no obstacle there. |
| Eta.ETATracker.Update | src/vestigo/core/eta.py:53-67 | One observation's whole effect; one without time or bytes has none. |
| Eta.ETATracker.Remaining | src/vestigo/core/eta.py:87-98 | An ETA only from the second update on and for a positive rate. |
| Eta.GainOf | src/vestigo/core/eta.py:64 | The gain lies strictly between 0 and 1 and is the fraction it is written as. |
| Eta.VarianceStep | src/vestigo/core/eta.py:63-66 | From a variance in [50, 100] an update leaves at most a quarter of the distance from 50, within [50, 60], under a gain in [½, 3/5]. |
| Eta.SteadyState | src/vestigo/core/eta.py:63-66 | At variance 50 the filter stands still, with gain ½. |
| Eta.ClosedFormIsNotTheLimit | src/vestigo/core/eta.py:33-36 | The documented closed form for the gain is ¼ for these constants, the one for the variance is 50. |
| Eta.MeanStays | src/vestigo/core/eta.py:65 | An update moves the rate within the bounds of the old rate and the observation. |
| Eta.RunSettles | src/vestigo/core/eta.py:53-67 | Over any run the rate stays within the observed rates, and from the second update on the variance closes in on 50 fourfold per update, and the gain on ½. |
| Eta.EtaBetweenExtremes | src/vestigo/core/eta.py:87-98 | From the second update on the ETA lies between the remaining bytes over the highest and over the lowest observed rate. |
| Eta.EtaFromTheSecondOn | src/vestigo/core/eta.py:53-61 | An ETA is known exactly from the second observation on that took time and moved bytes; the others leave no trace. |
| Eta.SteadyStream | src/vestigo/core/eta.py:57-98 | Of a stream of steady speed the rate is that speed, and the ETA times the speed is what remains. |
| Eta.ThroughputMeter.Observe | src/vestigo/core/eta.py:141-170 | The first snapshot only starts the clock; each later one is one observation of the difference. |
| Buckets.BucketIsSlot | src/vestigo/db/_buckets.py:75-77 | An instant is in the bucket of a slot exactly when that is its slot. |
| Buckets.GridIsAligned | src/vestigo/db/_buckets.py:72-94 | The grid is not empty, goes up by one interval at a time, is aligned to the epoch and covers the range, trailing bucket included. |
| Buckets.ExactlyOneBucket | src/vestigo/db/_buckets.py:83-94 | Every instant of the range is in exactly one bucket of the grid. |
| Buckets.CountsAddUp | src/vestigo/db/_buckets.py:83-94 | The bucket counts of any events in the range add up to their number. |
| Buckets.IntervalIsWholeSeconds | src/vestigo/db/_buckets.py:69-72 | The interval is the number of whole seconds in an even cut, and at least one. |
| Buckets.GridIsSmall | src/vestigo/db/_buckets.py:69-94 | The grid for a wanted number of buckets has at most twice that number and one more. |
| Jobs.JobStore.Create | src/vestigo/core/jobs.py:72-86 | A queued job with the given fields is added under its id; nothing else changes. |
| Jobs.JobStore.Get | src/vestigo/core/jobs.py:88-90 | The job under the id, or none. |
| Jobs.JobStore.Update | src/vestigo/core/jobs.py:99-124 | The given fields change; a job that ends joins the finish order and the oldest entries are evicted; an unknown id has no effect. |
| Jobs.UpdateSets | src/vestigo/core/jobs.py:107-124 | An update sets status, result and error if given, merges progress key by key and leaves all else; a job joins the finish order exactly when an unfinished one becomes completed or failed. |
| Jobs.JobStore.EvictLocked | src/vestigo/core/jobs.py:126-130 | The loop cuts the finish order to its last entries and removes the jobs cut, and no others. |
| Jobs.RetentionIsExact | src/vestigo/core/jobs.py:99-130 | Over any run, reopenings included, the finish order is the last endings in order, and the store holds every job ever created, as it was last left, save those with an ending that has been cut. |
| Jobs.JobIsGoneExactlyWhen | src/vestigo/core/jobs.py:126-130 | A created job is gone if and only if one of its endings has been cut. |
| Jobs.AtWorkAgain | src/vestigo/core/jobs.py:112-117 | A job that has ended is unfinished if and only if it was reopened and has not ended since. |
| Jobs.UnfinishedIsGoneExactlyWhen | src/vestigo/core/jobs.py:59-61 | A queued or running job is gone if and only if it was reopened and one of its endings has been cut. |
| Jobs.PromiseWithoutReopening | src/vestigo/core/jobs.py:59-61 | In a run without reopening, jobs end once each; an unfinished job is always kept, and a finished one exactly while it is among the last to have ended. |
| Jobs.ReopenedJobIsEvicted | src/vestigo/core/jobs.py:112-130 | Any job in the finish order, running again or not, is gone once enough others have finished after it. |
| Jobs.ReopeningLosesARunningJob | src/vestigo/core/jobs.py:112-130 | A concrete run in which a running job is evicted. |

## Left out

- Floating point: values, rates, thresholds and estimates are exact reals without NaN or infinities; square roots are parameters that satisfy their equation.
- P-values, the variance of S and the other statistics of `stats.py`: fitted approximations.
- Cancellation of a waiting call: asyncio then cancels the shared future as well; the guard's waits here end by a result or a failure only. Logging is left out everywhere.
- The text of the guard's canonical key: a key is a name and an opaque argument text.
- JSON text syntax, UTF-8 decoding and URL escaping: encoders and decoders are taken as inverse pairs; a parameter or payload whose JSON does not parse is one that is absent.
- The two size measures of `src/vestigo/agent/window.py:196` and `src/vestigo/agent/window.py:210`: one additive measure in characters stands for both, with the sizes of the frames around parts and messages as parameters.
- A request that mixes tool returns with a user prompt: pairing is promised only where a result answers a call of its own turn.
- `budget_for` and `calibrate_chars_per_token`: short arithmetic.
- WindowEstimates.ReductionShrinks: says nothing once a turn is dropped, because the marker can be larger than the turn; `DroppingGrowsExactlyWhen` says when.
- SlimTwice.SlimIsIdempotent: the condition is exact object by object (`ObjectStaysExactlyWhen`); for whole schemas it is sufficient only, because an overridden arm can itself be overwritten by what stands beside an outer union.
- GuardResults.DuplicateNamesCompleted: says nothing of the step of the named call, because a call that retries late may claim in a later step; `DuplicateNamesOwnStep` does, for steps that do not overlap.
- SlimProofs.SlimMeaning: `patternProperties`, `definitions` and every keyword outside the small validator count as annotations; references are followed to any given depth; beside a null union there are annotations only and data-valued keywords hold no schema-like objects, as the code needs.
- Name tokenising by regular expression, shape classification of samples, and the naming and order of suggestions in `fieldSuggest.ts`: tokens and shapes are inputs.
- Marker timestamps are integers; the built-in stable sort is an insertion sort.
- Objects as JavaScript dictionaries: the key `__proto__` is a key like any other.
- `limit`, `offset` and ordering, and the API-parameter serializer of `queryParams.ts`: the same shape as the URL printer.
- The confidence band of the ETA: it needs a square root of the variance and adds no property of its own.
- Eta.ThroughputMeter.Observe: the clock is a parameter.
- Database queries, ISO rendering of bucket starts and time zones: instants are whole microseconds since the epoch.
- Jobs.JobStore.Create: the random id is a parameter, and whole-run results take ids never to repeat; the lock is not modelled, each method being one atomic step.
- Jobs.JobStore.Update: jobs are values in the map, so a caller's reference to a job that changes later is not captured; `list_by_case` is left out.
- Web pages, HTTP routes, storage back ends, the model providers and the tool bodies.
