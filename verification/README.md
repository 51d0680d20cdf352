# Serving overlays and fleet agent: a verified model

This project models the parts of an LLM serving deployment in which an error would be
silent: the continuous-batching scheduler, the printer and parser of DeepSeek-V4
conversations, the layout of prefill workspaces, and on the agent side the slot state
machine and the GGUF metadata reader. `dafny verify dfyconfig.toml` checks all of it.

| modules | what they are |
|---|---|
| `SchedulerState`, `SchedulerStep` | one request's arithmetic; the scheduler's methods and loops as functions over a state |
| `SchedulerInvariants`, `SchedulerAdmission`, `SchedulerDrafts`, `SchedulerRuns`, `SchedulerOrder` | the invariant through the running phase, the waiting phase, every call and every run; where drafts are; order and fairness |
| `SchedulerRows`, `SchedulerPhases`, `SchedulerPriority` | what a step does to each request, to the queues and to the flags |
| `SchedulerEffects`, `SchedulerLifetime` | what the other calls do; what was aborted stays gone |
| `SchedulerProgress`, `SchedulerLiveness`, `SchedulerStuck` | no stall; every request finishes, exactly when none runs at the length of the model |
| `SchedulerLimits` | runs that show where conditions are needed, and the exact condition on the configuration |
| `SchedulerObject` | the scheduler as a class whose methods update its fields in place, proved against those functions |
| `AlignedSplit`, `EncoderInputs`, `BlockFence`, `InvalidBlocks` | four parts of the scheduler modelled on their own |
| `DsmlText`, `DsmlCodec`, `DsmlRoundTrip`, `DsmlTheorem`, `DsmlParser` | first occurrences in text, the printer and the parser, their inverse law, the parser's index loops |
| `DsmlSoundness`, `DsmlCut` | what the parser accepts, and the messages it accepts although they are cut |
| `PromptMessages`, `PromptEncoding`, `PromptEncoder`, `PromptStability`, `PromptTurns`, `PromptReasoning` | merging and sorting tool results, printing a conversation, how a prompt grows, one turn of it, what is dropped |
| `PromptScript`, `PromptReading` | what a prompt contains, said of the raw messages; reading it back |
| `PrefillChunks`, `WorkspaceRebase` | cutting a batch, sizing and sharing the workspace |
| `Fleet`, `FleetReports`, `Gguf`, `GgufWriter` | slots and engines, what is reported of them; the bounded metadata reader and a writer for it |
| `GrammarMatcher`, `VideoPlaceholder`, `SlotMap` | three small wrappers |
| `Options`, `Seqs`, `Arithmetic` | shared definitions and facts |

What the program asks of its surroundings appears as a parameter that may answer
anything: block allocation, cached prefixes, encoder and alignment trims, grammars that
become ready, requests held back, the sampled tokens (one to drafts plus one for a row
that is not a prefill chunk, none for one that is), the JSON printer, the inference
grammar, readiness and death of engines. Clocks, logging and metrics are left out.

## Findings

Where the code does not do what its surroundings assume, the model follows the code, and
a lemma says exactly when the property holds.

- The long-prefill threshold is applied after a decode was padded for speculation, so a
  threshold below one plus the drafts makes counters go negative
  (`SchedulerLimits.EveryRunIsSoundIff`, `NegativeCounterWitness`).
- Drafts can reach a request that was preempted after its last full row, since its
  prefill flag is stale; it may then prefill with drafts (`SchedulerRuns.RunKeepsDraftsIff`,
  `SchedulerLimits.StaleDraftsRun`).
- A running request with as many tokens as the model takes is never finished while
  allocations succeed: its last token is never scheduled. A prompt of that length gets there
  when it is prefilled in chunks (`SchedulerStuck.EmptiesIff`, `StuckRun`).
- A block-aligned prefill whose tokens fill the model length never ends in the running
  phase (`AlignedSplit.PrefillEndsIff`).
- The parser takes a message that is cut inside its block of calls for a whole one with the
  calls up to there (`DsmlCut.CutIsAccepted`); an accepted message is complete exactly if
  it ends with the end-of-sentence token (`DsmlSoundness.CompleteIff`).
- A load that overtakes the end of an engine asked to unload leaves the intent behind,
  and the crash of the new engine is reported as an unload (`Fleet.HonestIffCareful`,
  `OvertakingRun`).
- A prompt does not grow at its end when the context ends with a request to the assistant
  and the rest starts with a system or developer message
  (`PromptStability.PrefixIsStableIff`).
- A user message that joins the one before it loses its task (`PromptMessages.MergeKeepsHeads`).
- A tool result whose call is unknown is sorted as one of the first call
  (`PromptMessages.SortedBlocks`).

## Model

| member | source | states |
|---|---|---|
| `SchedulerRuns.EveryRunIsSafe` | deploy/overlays/dspark/scheduler.py:1037-1048 | from the empty scheduler, after any legal run of add, schedule, output, drafts, abort, reset and pause: the queues partition the live requests, RUNNING iff in the running list, blocked only in the skipped queue, every running request prefills or is exactly one token behind, no request that waits or prefills carries drafts unless some were brought to it, the partial-prefill cap and the running cap hold; and the next step never asks for a negative number of tokens, keeps budget plus scheduled tokens equal to the starting budget, and trips no assertion |
| `SchedulerRuns.RunKeepsSound` | deploy/overlays/dspark/scheduler.py:396-1148 | the invariant behind EveryRunIsSafe is kept by every legal run from any state that has it |
| `SchedulerRuns.CallKeepsSound` | deploy/overlays/dspark/scheduler.py:396-2112 | each single call keeps it |
| `SchedulerRuns.ScheduleKeepsInv` | deploy/overlays/dspark/scheduler.py:434-1048 | a whole step keeps partition, counters and caps, and its ledger is exact |
| `SchedulerRuns.ListsFit` | deploy/overlays/dspark/scheduler.py:1046-1048 | the three lists of scheduled requests together are no longer than the running list |
| `SchedulerRuns.AdvanceKeepsInv` | deploy/overlays/dspark/scheduler.py:1189-1204 | counting the issued tokens turns the invariant inside a step into the one between calls; the in-flight prefills are then exactly the running requests still prefilling |
| `SchedulerRuns.UpdateKeepsInv` | deploy/overlays/dspark/scheduler.py:1593-1779 | receiving any legal output, with any drafts accepted and any requests stopped, keeps it, also when a request was preempted meanwhile |
| `SchedulerRuns.DraftsKeepInv` | deploy/overlays/dspark/scheduler.py:1963-1983 | new drafts keep it |
| `SchedulerRuns.FinishKeepsInv` | deploy/overlays/dspark/scheduler.py:2073-2112 | aborting any set of ids, live or not, keeps it |
| `SchedulerRuns.AddKeepsInv` | deploy/overlays/dspark/scheduler.py:2041-2045 | a new request keeps it |
| `SchedulerRuns.PreemptAllKeepsInv` | deploy/overlays/dspark/scheduler.py:2229-2231 | resetting the running requests keeps it, also with a step out, and leaves nothing running or prefilling |
| `SchedulerRuns.PauseKeepsInv` | deploy/overlays/dspark/scheduler.py:2142-2143 | pausing keeps it |
| `SchedulerRuns.PaddingSurvivesIff` | deploy/overlays/dspark/scheduler.py:827-845 | beside a scheduled decode, padded requests always get rows that fit their drafts if and only if the long-prefill threshold, applied after padding, is off or at least one more than the drafts, or the configuration leaves no room for a padded row beside another |
| `SchedulerLimits.EveryRunIsSoundIff` | deploy/overlays/dspark/scheduler.py:827-845 | every run whose trims leave padded rows whole keeps the invariant, if and only if the configuration meets that same condition |
| `SchedulerLimits.CutRun` | deploy/overlays/dspark/scheduler.py:829-845 | under any other configuration a run from the empty scheduler leaves it: a counter ends at the threshold minus the drafts |
| `SchedulerRuns.CutPadding` | deploy/overlays/dspark/scheduler.py:829-845 | below that threshold one-token requests get rows that do not fit |
| `SchedulerLimits.NegativeCounterWitness` | deploy/overlays/dspark/scheduler.py:1617-1618 | with a threshold of one and five drafts a run from the empty scheduler ends with a counter of -4 |
| `SchedulerRuns.CallKeepsDraftsIff` | deploy/overlays/dspark/scheduler.py:1973-1983 | of all calls exactly those keep waiting and prefilling requests free of drafts that bring none to a new request nor to one that is not running and whose prefill flag is off |
| `SchedulerRuns.RunKeepsDraftsIff` | deploy/overlays/dspark/scheduler.py:1973-1983 | over whole runs: never a waiting or prefilling request with drafts, if and only if every call is such a call |
| `SchedulerLimits.StaleDraftsRun` | deploy/overlays/dspark/scheduler.py:1167-1170 | a legal run from the empty scheduler in which a preempted request gets drafts, and is then admitted as a prefill that carries them |
| `SchedulerDrafts.ScheduleKeepsDrafts` | deploy/overlays/dspark/scheduler.py:440-1204 | a whole step brings no drafts to a waiting or prefilling request |
| `SchedulerOrder.ArrivalOrder` | deploy/overlays/dspark/scheduler.py:1175-1176 | first come, first served over every run without blocked or held requests: running list followed by waiting queue is the list of live requests in arrival order, through preemption, reset, abort and finish |
| `SchedulerOrder.ScheduleKeepsOrder` | deploy/overlays/dspark/scheduler.py:442-1011 | one step under FCFS keeps running followed by waiting |
| `SchedulerOrder.PreemptAllKeepsOrder` | deploy/overlays/dspark/scheduler.py:2227-2231 | preempting everything in reverse puts it back in the order it ran in |
| `SchedulerOrder.RunLoopServes` | deploy/overlays/dspark/scheduler.py:440-591 | if allocations succeed, the running phase passes over a request only when budget is gone, the request is a deferred prefill, it is trimmed to nothing, or it is at the length limit |
| `SchedulerOrder.HeadIsLeast` | deploy/overlays/dspark/scheduler.py:1886-1890 | under PRIORITY the queue head is the first request that none precedes |
| `SchedulerOrder.VictimIsGreatest` | deploy/overlays/dspark/scheduler.py:547-551 | under PRIORITY the victim is the first running request that precedes none |
| `SchedulerLiveness.EveryRequestFinishes` | deploy/overlays/dspark/scheduler.py:396-1983 | from any reachable state between steps with all requests below the model length, as many rounds of step, output and drafts as there is work left leave no live request, whatever is sampled, accepted, cached, trimmed or throttled, as long as allocations succeed |
| `SchedulerStuck.EmptiesIff` | deploy/overlays/dspark/scheduler.py:484-530 | when no waiting request has the length of the model, as many rounds as there is work empty the scheduler if and only if no request has that length |
| `SchedulerStuck.NeverFinishes` | deploy/overlays/dspark/scheduler.py:484-530 | a running request of the length of the model is live after any number of rounds in which allocations succeed |
| `SchedulerStuck.StuckRun` | deploy/overlays/dspark/scheduler.py:484-530 | a legal run from the empty scheduler reaches that state: a prompt of the length of the model in two chunks |
| `SchedulerLiveness.SomeRound` | deploy/overlays/dspark/scheduler.py:396-1983 | rounds of the kind that EveryRequestFinishes is about exist in every state |
| `SchedulerLiveness.RoundLessens` | deploy/overlays/dspark/scheduler.py:396-1779 | each round with a live request leaves strictly less work |
| `SchedulerLiveness.RoundWorks` | deploy/overlays/dspark/scheduler.py:1189-1204 | no request is set back by a round, and one with a row is advanced |
| `SchedulerLiveness.OutputWorks` | deploy/overlays/dspark/scheduler.py:1604-1646 | an output generates a token for a request that decodes and leaves a prefill chunk as it is |
| `SchedulerProgress.NoStall` | deploy/overlays/dspark/scheduler.py:434-1048 | if allocations succeed and nothing is held back, a step schedules a token whenever there is a live request, throttled or not |
| `SchedulerProgress.RunningWork` | deploy/overlays/dspark/scheduler.py:434-591 | with running requests the running phase schedules one |
| `SchedulerProgress.AdmissionWork` | deploy/overlays/dspark/scheduler.py:640-1011 | with none running the head of the queues is admitted |
| `SchedulerProgress.StuckAtLength` | deploy/overlays/dspark/scheduler.py:484-530 | one iteration passes over a running request one token short of the model length, whatever the budget |
| `SchedulerOrder.NextIsLeast` | deploy/overlays/dspark/scheduler.py:1882-1892 | under PRIORITY the request considered next is one that no waiting request of either queue precedes; under FCFS the skipped queue goes first |
| `SchedulerRows.StepEffect` | deploy/overlays/dspark/scheduler.py:434-1048 | for every live request and whatever the allocations, the cache and the trims answer: a running one with a row has as many tokens as length, threshold and trim allow, or as the budget does, which is then spent, with the first of its drafts as far as they fit; one admitted is computed from the cached prefix, which never covers its last token, all its tokens or as many as threshold, trim and budget leave, padded only beside decodes; it is listed as resumed if it was preempted, as new otherwise; a preempted one has lost its computed tokens and drafts; a prefill put off gets nothing; any other is as it was |
| `SchedulerRows.PhasesEffect` | deploy/overlays/dspark/scheduler.py:442-1011 | the same before the counters are advanced, composed of the two phases |
| `SchedulerRows.RunLoopRan` | deploy/overlays/dspark/scheduler.py:440-624 | one request across the running phase |
| `SchedulerRows.WaitLoopBoth` | deploy/overlays/dspark/scheduler.py:640-1011 | one request across the waiting phase |
| `SchedulerRows.AdmittedIsRow` | deploy/overlays/dspark/scheduler.py:738-858 | the decision to admit: from the cached prefix on, within all limits, and no less than they allow |
| `SchedulerPhases.StepOverall` | deploy/overlays/dspark/scheduler.py:396-1048 | a step brings in and loses no request; under a full pause it does nothing, under a pause of admission only running requests get rows; the prefill flag tells whether a running request with a row prefills; what is remembered of capacity is whether some request still waits |
| `SchedulerPhases.StepQueues` | deploy/overlays/dspark/scheduler.py:440-1030 | first come, first served, whatever is blocked or held back: preemption takes the last running requests back to the front; admission takes some of the skipped queue followed by the waiting one, in order, and leaves the others in order |
| `SchedulerPhases.WaitLoopEnds` | deploy/overlays/dspark/scheduler.py:640-1011 | admission ends only with both queues looked through, no budget, a full running list, as many prefills as may be under way, or the request in line refused for a stated reason |
| `SchedulerPriority.StepByPriority` | deploy/overlays/dspark/scheduler.py:546-578 | under PRIORITY nobody is preempted who comes before a request that goes on running, and nobody is admitted who comes after one left waiting, unless that one is blocked or held back |
| `SchedulerEffects.FinishAborts` | deploy/overlays/dspark/scheduler.py:2073-2112 | after an abort no id of it is live, running, waiting, skipped or prefilling; every other request has the same record, in the same queue, in the same order |
| `SchedulerLifetime.AbortedStaysGone` | deploy/overlays/dspark/scheduler.py:2051-2112 | over any legal calls an aborted request stays away until it is added again, also when a step that was out for it is answered |
| `SchedulerLifetime.RunBringsNone` | deploy/overlays/dspark/scheduler.py:396-2112 | no legal run without an addition of it brings an id in |
| `SchedulerLifetime.ResetEffect` | deploy/overlays/dspark/scheduler.py:2227-2231 | a reset puts every running request back in front of the queue, in order, with nothing computed and preempted once, and changes no other |
| `SchedulerEffects.UpdateAnswers` | deploy/overlays/dspark/scheduler.py:1575-1779 | after an output exactly the requests of the step that come to their end with it are gone; the others of it have all their generated tokens and none computed for rejected drafts; no other request changes |
| `SchedulerEffects.AppendIsExact` | deploy/overlays/dspark/scheduler.py:1912-1928 | tokens are appended up to the first with which the request is at its end, and that is when it stops |
| `SchedulerEffects.CallsAddAndDraft` | deploy/overlays/dspark/scheduler.py:1963-2045 | an added request joins the end of the queue its status asks for; a request that is no prefill chunk has exactly the drafts it is given |
| `SchedulerState.RunningTokensBounds` | deploy/overlays/dspark/scheduler.py:473-489 | a settled request is offered between 0 and the budget, and 0 exactly at the length limit |
| `SchedulerState.RunningRowFits` | deploy/overlays/dspark/scheduler.py:594-609 | whatever budget, threshold, length limit and trims leave of a row, the drafts kept are those that fit it |
| `SchedulerState.AdmittedRowFits` | deploy/overlays/dspark/scheduler.py:821-858 | an admitted request schedules at least one token within the budget, and its row fits exactly when no padding was cut off |
| `SchedulerState.StepKeepsAccounting` | deploy/overlays/dspark/scheduler.py:1604-1622 | issue a fitting row, receive any legal answer: a request that does not stop is settled again |
| `SchedulerInvariants.PreemptPlacement` | deploy/overlays/dspark/scheduler.py:1155-1177 | preempting a running request keeps partition and placement |
| `SchedulerInvariants.RefundExact` | deploy/overlays/dspark/scheduler.py:553-557 | the refund for a victim already scheduled gives back exactly its tokens and removes its row once |
| `SchedulerInvariants.FcfsVictimUnscheduled` | deploy/overlays/dspark/scheduler.py:571-572 | under FCFS the victim is never one already scheduled |
| `SchedulerInvariants.EvictKeepsPhase1` | deploy/overlays/dspark/scheduler.py:546-576 | one preemption inside the running phase, under either policy and with its index correction, keeps the invariant of the phase |
| `SchedulerInvariants.PlaceKeepsPhase1` | deploy/overlays/dspark/scheduler.py:532-578 | the preemption loop keeps it, and it ends |
| `SchedulerInvariants.EnterKeepsPhase1` | deploy/overlays/dspark/scheduler.py:584-609 | recording a row keeps it |
| `SchedulerInvariants.RunOneKeepsPhase1` | deploy/overlays/dspark/scheduler.py:442-591 | one iteration of the running loop keeps it |
| `SchedulerInvariants.RunLoopKeepsMid` | deploy/overlays/dspark/scheduler.py:440-624 | the running phase ends in a state with partition, ledger and counters intact, and with nothing preempted none is lost |
| `SchedulerAdmission.HoldKeepsMid` | deploy/overlays/dspark/scheduler.py:677-679 | passing a waiting request over keeps it accounted for |
| `SchedulerAdmission.PromoteKeepsMid` | deploy/overlays/dspark/scheduler.py:668-671 | so does promoting a blocked one |
| `SchedulerAdmission.PaddingKept` | deploy/overlays/dspark/scheduler.py:827-858 | under the stated threshold no padded row is cut |
| `SchedulerAdmission.EnrollKeepsMid` | deploy/overlays/dspark/scheduler.py:961-1011 | admission keeps partition, ledger, lists and the partial-prefill cap |
| `SchedulerAdmission.ConsiderKeepsMid` | deploy/overlays/dspark/scheduler.py:681-1011 | each way an admission can go keeps the invariant inside the step |
| `SchedulerAdmission.WaitOneKeepsMid` | deploy/overlays/dspark/scheduler.py:662-1011 | one iteration of the waiting loop keeps it |
| `SchedulerAdmission.WaitLoopKeepsMid` | deploy/overlays/dspark/scheduler.py:640-660 | the whole waiting loop, which ends because waiting plus skipped shrinks, keeps it |
| `SchedulerAdmission.RequeueKeepsMid` | deploy/overlays/dspark/scheduler.py:1028-1030 | the requests passed over return to the skipped queue, none lost |
| `SchedulerAdmission.PhasesKeepMid` | deploy/overlays/dspark/scheduler.py:440-1048 | both phases together |
| `SchedulerObject.Scheduler.constructor` | deploy/overlays/dspark/scheduler.py:69-336 | starts in the initial state of the runs |
| `SchedulerObject.Scheduler.Schedule` | deploy/overlays/dspark/scheduler.py:396-1148 | in place: the new state and the step are those of the step function, no assertion fails, the ledger is exact; each request is treated as StepEffect says, the whole as StepOverall, and the queues as StepQueues or StepByPriority |
| `SchedulerObject.Scheduler.ScheduleRunning` | deploy/overlays/dspark/scheduler.py:440-624 | the running loop, in place |
| `SchedulerObject.Scheduler.Allocate` | deploy/overlays/dspark/scheduler.py:532-578 | the preemption loop, in place |
| `SchedulerObject.Scheduler.Evict` | deploy/overlays/dspark/scheduler.py:546-576 | one preemption with refund and index correction, in place |
| `SchedulerObject.Scheduler.ScheduleWaiting` | deploy/overlays/dspark/scheduler.py:640-1011 | the waiting loop, in place |
| `SchedulerObject.Scheduler.UpdateAfterSchedule` | deploy/overlays/dspark/scheduler.py:1189-1204 | counters and in-flight prefills of all issued rows |
| `SchedulerObject.Scheduler.AddRequest` | deploy/overlays/dspark/scheduler.py:2041-2045 | the request joins the end of the right queue, and the invariant holds |
| `SchedulerObject.Scheduler.UpdateFromOutput` | deploy/overlays/dspark/scheduler.py:1575-1779 | exactly the requests at their end are gone from table and queues; the others of the step have all their tokens and no rejected drafts counted |
| `SchedulerObject.Scheduler.AppendTokens` | deploy/overlays/dspark/scheduler.py:1912-1928 | appends up to and including the first token that stops the request |
| `SchedulerObject.Scheduler.ProcessRows` | deploy/overlays/dspark/scheduler.py:1575-1731 | the loop over the rows, with the stopped requests in two sets |
| `SchedulerObject.Scheduler.UpdateDraftTokenIds` | deploy/overlays/dspark/scheduler.py:1963-1983 | exactly the drafts given, none on prefill chunks; nothing else changes |
| `SchedulerObject.Scheduler.FinishRequests` | deploy/overlays/dspark/scheduler.py:2073-2112 | the two passes together: no id named is left in the table or any queue, every other request is as it was, in the same queue and order |
| `SchedulerObject.Scheduler.ResetPrefixCache` | deploy/overlays/dspark/scheduler.py:2221-2231 | every running request back in front of the queue in order, with nothing computed; no other changes |
| `SchedulerObject.Scheduler.PreemptRequest` | deploy/overlays/dspark/scheduler.py:1155-1177 | back in front of the waiting queue with no computed tokens and no drafts |
| `SchedulerObject.Scheduler.SetPauseState` | deploy/overlays/dspark/scheduler.py:2142-2143 | changes the pause state only |
| `AlignedSplit.SplitIsLongest` | deploy/overlays/dspark/scheduler.py:357-383 | from an aligned start or one past the last cache position, the split without a common prefix is the longest chunk that fits, ends aligned or past the last cache position and does not jump over it |
| `AlignedSplit.SplitIsGood` | deploy/overlays/dspark/scheduler.py:387-394 | a common prefix worth caching and shorter than the chunk makes it the longest one of whole blocks within that prefix, still good; otherwise it changes nothing |
| `AlignedSplit.LastCachePositionIs` | deploy/overlays/dspark/scheduler.py:364-370 | the last cache position is the end of the last whole block, one block before it where the last matching block is pruned |
| `AlignedSplit.PaddedRowIff` | deploy/overlays/dspark/scheduler.py:357-394 | a padded row for the last token is left whole if and only if it is no prefill, or neither the end of the prompt is a boundary to be cached nor a common prefix ends inside the row |
| `AlignedSplit.AlignedPaddingIsKept` | deploy/overlays/dspark/scheduler.py:357-394 | from an aligned position with blocks of more than one token it is left whole |
| `AlignedSplit.PrefillStaysOnTrack` | deploy/overlays/dspark/scheduler.py:338-394 | over any sequence of steps no chunk ends off track, and the last cache position is hit exactly |
| `AlignedSplit.NextIsLong` | deploy/overlays/dspark/scheduler.py:371-383 | given a block to spend, a chunk is at least a block or all that is left |
| `AlignedSplit.PrefillEndsIff` | deploy/overlays/dspark/scheduler.py:484-512 | a running prefill given a block in each step ends, in no more steps than it has blocks left, if and only if its tokens are fewer than the model length |
| `EncoderInputs.TryScheduleEncoderInputs` | deploy/overlays/dspark/scheduler.py:1358-1488 | the tokens returned are within those asked for and need no embedding that is not cached, computed in this step, or loaded from a connector that holds it; what a connector holds is loaded and nothing else is; there was room for each choice; the budget falls by exactly the embeddings scheduled; no content is chosen twice; tokens are given up only before an item that cannot be had |
| `EncoderInputs.Visit` | deploy/overlays/dspark/scheduler.py:1404-1481 | one item: skipped, chosen or blocked |
| `EncoderInputs.WindowIsEnough` | deploy/overlays/dspark/scheduler.py:1372-1376 | items outside the window are not read |
| `EncoderInputs.StopIsSound` | deploy/overlays/dspark/scheduler.py:1420-1452 | stopping before a blocked item leaves nothing read that is not there |
| `EncoderInputs.RangeCounts` | deploy/overlays/dspark/scheduler.py:1454-1468 | counting the embeddings in the covered range tells whether the item is read |
| `EncoderInputs.PickIsTidy` | deploy/overlays/dspark/scheduler.py:1470-1481 | choosing an item keeps order, hashes, embeddings and budget in step |
| `EncoderInputs.PickIsSourced` | deploy/overlays/dspark/scheduler.py:1433-1481 | an item chosen is loaded exactly if a connector holds it, and is chosen only with room for it and unsplit |
| `BlockFence.RunsAreSafe` | deploy/overlays/dspark/scheduler.py:2145-2172 | over every run with overlapping steps: free, held and deferred blocks are exactly all blocks, fences lie between processed and scheduled in order, no block a step in flight may write is in the pool, and once all steps are processed nothing is deferred |
| `BlockFence.OpKeepsGood` | deploy/overlays/dspark/scheduler.py:1143-1195 | each operation keeps it |
| `BlockFence.AllocateConserves` | deploy/overlays/dspark/scheduler.py:533-545 | taking blocks loses and duplicates none |
| `BlockFence.FreeConserves` | deploy/overlays/dspark/scheduler.py:2145-2158 | nor does freeing, at once or deferred |
| `BlockFence.DrainConserves` | deploy/overlays/dspark/scheduler.py:2166-2172 | nor draining |
| `BlockFence.DrainFences` | deploy/overlays/dspark/scheduler.py:2160-2165 | after draining no fence that remains has been processed; the first pending one may stop the drain because fences do not decrease |
| `BlockFence.CaughtUp` | deploy/overlays/dspark/scheduler.py:2160-2172 | processed equals scheduled implies nothing is deferred |
| `BlockFence.OperationsDo` | deploy/overlays/dspark/scheduler.py:2145-2158 | a request in no step whose output is still out gives its blocks back at once, last one first, any other behind the last step issued; a request is given all blocks asked for from the front of the pool; each request of a step gets its number; no other request changes |
| `BlockFence.DrainDoes` | deploy/overlays/dspark/scheduler.py:2160-2172 | everything behind a processed step is returned, and nothing else |
| `BlockFence.BlockManager.FreeRequestBlocks` | deploy/overlays/dspark/scheduler.py:2145-2158 | in place: at once if the last step of the request has been processed, else deferred; the invariant holds |
| `BlockFence.BlockManager.ScheduleStep` | deploy/overlays/dspark/scheduler.py:1141-1195 | the fence advances for non-empty steps only |
| `BlockFence.BlockManager.ProcessOutput` | deploy/overlays/dspark/scheduler.py:1528-1532 | in place, with the invariant |
| `BlockFence.BlockManager.DrainDeferredFrees` | deploy/overlays/dspark/scheduler.py:2160-2172 | the loop over the deque |
| `BlockFence.BlockManager.AllocateSlots` | deploy/overlays/dspark/scheduler.py:533-545 | all blocks asked for, or none and no change |
| `InvalidBlocks.UpdateRequestsWithInvalidBlocks` | deploy/overlays/dspark/scheduler.py:2549-2619 | the pass in place, with its running set of marked blocks: each request is cut at the first invalid block that none before it holds, or back to what was computed before the step if it holds another invalid one, or left alone; the tokens lost are summed; affected are exactly those that hold an invalid block; evicted is exactly what lies at or after a cut, if asked for |
| `InvalidBlocks.OneFirstHolder` | deploy/overlays/dspark/scheduler.py:2552-2555 | every invalid block in some computed prefix has exactly one first holder |
| `InvalidBlocks.FirstHolderRecomputes` | deploy/overlays/dspark/scheduler.py:2593-2599 | the first holder is cut to a block boundary at or before the block |
| `InvalidBlocks.KeptIsSound` | deploy/overlays/dspark/scheduler.py:2577-2586 | an invalid block kept in a prefix is held by an earlier request that is cut at or before it, so computes it again |
| `InvalidBlocks.CutIsWithin` | deploy/overlays/dspark/scheduler.py:2564-2599 | a cut lies within the tokens computed before the step; no cut adds tokens |
| `InvalidBlocks.VerdictMeans` | deploy/overlays/dspark/scheduler.py:2571-2617 | a request is left alone exactly when its prefix holds no invalid block, and cut exactly when it is the first holder of one |
| `InvalidBlocks.InvalidIsEvicted` | deploy/overlays/dspark/scheduler.py:2601-2603 | every invalid block in some computed prefix is among the blocks to evict, when they are asked for |
| `InvalidBlocks.EvictedIs` | deploy/overlays/dspark/scheduler.py:2601-2603 | a block is evicted if and only if some request cut at a block holds it there or later |
| `InvalidBlocks.OutcomeIs` | deploy/overlays/dspark/scheduler.py:2571-2617 | the new counter and the tokens lost of each request, from the prefixes alone |
| `InvalidBlocks.PrefixCovers` | deploy/overlays/dspark/scheduler.py:2564-2571 | the blocks scanned are those in which a token computed before the step lies |
| `InvalidBlocks.ScanRequest` | deploy/overlays/dspark/scheduler.py:2571-2603 | the loop over one request finds the first unmarked invalid block and marks all |
| `InvalidBlocks.VisitRequest` | deploy/overlays/dspark/scheduler.py:2556-2617 | one request: cut, reverted or untouched |
| `DsmlTheorem.RoundTrip` | deploy/overlays/dspark/deepseek_v4_encoding.py:338-380 | parsing a printed assistant message gives back reasoning, content and calls in order, for all clean reasoning and content and all calls whose texts contain none of the tags that end them; without the end token, exactly when there is a call |
| `DsmlTheorem.SimpleCallOk` | deploy/overlays/dspark/deepseek_v4_encoding.py:151-176 | names, keys and values without the DSML token and keys without quotes are such calls |
| `DsmlSoundness.AcceptedIsSpelled` | deploy/overlays/dspark/deepseek_v4_encoding.py:650-760 | whatever the parser takes for a message is laid out as one: reasoning, content, calls and end stand in the text one after the other, each call as its name and its parameters with no key twice, content and reasoning free of special tokens, and the message is what stands there; only inside the last call, or before the end of the block, may the text be cut |
| `DsmlSoundness.CompleteIff` | deploy/overlays/dspark/deepseek_v4_encoding.py:753 | an accepted message is complete with its end if and only if the text ends with the end-of-sentence token |
| `DsmlCut.CutIsAccepted` | deploy/overlays/dspark/deepseek_v4_encoding.py:666-668 | a printed message cut after any of its calls and before the end of its block is accepted, with the calls up to there as if they were all |
| `DsmlTheorem.ParameterComesBackIff` | deploy/overlays/dspark/deepseek_v4_encoding.py:151-176 | one parameter comes back if and only if its text contains no closing tag before its own and its key no flag |
| `DsmlTheorem.ParseCallsIs` | deploy/overlays/dspark/deepseek_v4_encoding.py:666-704 | the calls of a printed block are parsed in order, whatever follows it |
| `DsmlTheorem.ParseCallIs` | deploy/overlays/dspark/deepseek_v4_encoding.py:677-702 | one printed call is parsed back, also with no arguments, where only the pattern end before a newline makes it match |
| `DsmlTheorem.DecodedMembers` | deploy/overlays/dspark/deepseek_v4_encoding.py:179-202 | decoding the parameters gives the JSON object of the arguments (section 4 of RFC 8259) |
| `DsmlRoundTrip.MatchParameterIff` | deploy/overlays/dspark/deepseek_v4_encoding.py:686-691 | the parameter pattern gives key, flag and value back if and only if the key contains neither flag |
| `DsmlRoundTrip.MatchNameIs` | deploy/overlays/dspark/deepseek_v4_encoding.py:677-682 | the name pattern gives the name back |
| `DsmlText.ReadUntilIs` | deploy/overlays/dspark/deepseek_v4_encoding.py:626-653 | reading stops at the first occurrence of any stop string |
| `DsmlParser.ReadUntilStop` | deploy/overlays/dspark/deepseek_v4_encoding.py:626-653 | the loop over stop strings and an index into the text reads what the definition over the remaining text reads |
| `DsmlParser.ReadParameters` | deploy/overlays/dspark/deepseek_v4_encoding.py:684-699 | the inner loop, which ends because the text does |
| `DsmlParser.ParseToolCalls` | deploy/overlays/dspark/deepseek_v4_encoding.py:662-704 | the outer loop, errors included |
| `PromptStability.PrefixIsStable` | deploy/overlays/dspark/deepseek_v4_encoding.py:555-592 | printing the context and then the rest prints the whole, through merging, sorting and transition tokens, errors included, when reasoning is kept and the rest starts with an assistant or reminder message or the context ends with nobody asked |
| `PromptStability.PrefixIsStableIff` | deploy/overlays/dspark/deepseek_v4_encoding.py:384-411 | for every rest whose first message does not join the last of the context this condition is also necessary |
| `PromptStability.PreparedSplits` | deploy/overlays/dspark/deepseek_v4_encoding.py:557-564 | the context and the rest, each prepared, are the whole, prepared |
| `PromptReasoning.EarlierReasoningIsGone` | deploy/overlays/dspark/deepseek_v4_encoding.py:555-619 | two conversations that differ only in what the assistant thought before some question give the same prompt when earlier reasoning is dropped, through merging, sorting and rendering |
| `PromptReasoning.DropIgnoresReasoning` | deploy/overlays/dspark/deepseek_v4_encoding.py:595-619 | the list with earlier reasoning dropped does not depend on it |
| `PromptReasoning.LaterMessagesStay` | deploy/overlays/dspark/deepseek_v4_encoding.py:605-619 | from the last user message on nothing is dropped |
| `PromptTurns.TurnComesBack` | deploy/overlays/dspark/deepseek_v4_encoding.py:338-411 | an assistant message encoded after its context is the prompt of the context followed by a completion, and parsing that completion gives the message back |
| `PromptTurns.PromptHandsOver` | deploy/overlays/dspark/deepseek_v4_encoding.py:403-411 | when the last message asks, the prompt ends with the assistant token and the thinking token in thinking mode, the end of thinking otherwise |
| `PromptTurns.EncodeCompletion` | deploy/overlays/dspark/deepseek_v4_encoding.py:338-380 | the completion is the printed message alone |
| `PromptMessages.MergeKeepsItems` | deploy/overlays/dspark/deepseek_v4_encoding.py:420-476 | merging loses no message, block or order; no tool message is left, every user message has blocks |
| `PromptMessages.MergeKeepsHeads` | deploy/overlays/dspark/deepseek_v4_encoding.py:458-472 | task and end-of-sentence flag of a message are kept exactly if it does not join another; those of a user message that does are lost |
| `PromptMessages.MergeSplits` | deploy/overlays/dspark/deepseek_v4_encoding.py:439-476 | a later part that does not join the part before it is merged on its own |
| `PromptMessages.SortedBlocks` | deploy/overlays/dspark/deepseek_v4_encoding.py:501-516 | texts stay where they are, the tool results are all there, in call order and stable |
| `PromptMessages.SortIsStable` | deploy/overlays/dspark/deepseek_v4_encoding.py:504-507 | the sort orders, keeps every block, and keeps the order of equal keys |
| `PromptMessages.MergeToolMessages` | deploy/overlays/dspark/deepseek_v4_encoding.py:437-476 | the loop |
| `PromptMessages.SortToolResultsByCallOrder` | deploy/overlays/dspark/deepseek_v4_encoding.py:490-518 | the loop with the order of the last assistant calls |
| `PromptMessages.ReadCallOrder` | deploy/overlays/dspark/deepseek_v4_encoding.py:495-499 | of two calls with one id the later counts |
| `PromptMessages.PlaceSorted` | deploy/overlays/dspark/deepseek_v4_encoding.py:508-516 | the loop that refills the tool places |
| `PromptReading.PromptComesBack` | deploy/overlays/dspark/deepseek_v4_encoding.py:239-592 | a reader that knows only the three role tokens and splits at them gives back the conversation as it came, who spoke and what was said, the text of every message and tool result, if and only if no such text has a role token in it |
| `PromptReading.HarmlessSigns` | deploy/overlays/dspark/deepseek_v4_encoding.py:20-22 | texts in which no bar is followed by the first letter of a role are enough, whatever they are put together from |
| `PromptScript.PromptSays` | deploy/overlays/dspark/deepseek_v4_encoding.py:284-411 | for every conversation and context, mode and effort, reasoning kept or dropped: the prompt is the texts and tokens that the raw messages give, turn by turn, and there is one if and only if every message can be printed |
| `PromptScript.MergeIsEntries` | deploy/overlays/dspark/deepseek_v4_encoding.py:437-476 | merging makes one message of each turn, turns being cut from left to right: a tool message belongs to the turn before it, a user message to one without a task |
| `PromptScript.TurnTextIs` | deploy/overlays/dspark/deepseek_v4_encoding.py:304-328 | a turn prints the user texts at their places and between them every tool result in its tags, call by call and for one call as they came |
| `PromptScript.SortedByKey` | deploy/overlays/dspark/deepseek_v4_encoding.py:503-507 | sorted tool results are those of the first call, then of the next, each as they came |
| `PromptScript.KeyIsPosition` | deploy/overlays/dspark/deepseek_v4_encoding.py:495-507 | a result is sorted by the last call with its id, or as one of the first call |
| `PromptScript.KeptMatches` | deploy/overlays/dspark/deepseek_v4_encoding.py:605-619 | of what stands before the last question the assistant loses its reasoning, developers and unknown roles go, all else stays |
| `PromptEncoder.EncodeMessages` | deploy/overlays/dspark/deepseek_v4_encoding.py:525-592 | the whole encoder, loop by loop, with its errors; the prompt has the signs of the conversation (PromptSays) |
| `PromptEncoding.RenderFrom` | deploy/overlays/dspark/deepseek_v4_encoding.py:583-592 | the rendering loop; the first message that cannot be printed decides |
| `PromptEncoding.DropThinkingMessages` | deploy/overlays/dspark/deepseek_v4_encoding.py:605-619 | the loop |
| `PromptEncoding.LastUserIsLast` | deploy/overlays/dspark/deepseek_v4_encoding.py:225-232 | no user or developer message follows the one found |
| `PromptEncoding.FindLastUserIndex` | deploy/overlays/dspark/deepseek_v4_encoding.py:225-232 | the loop from the end |
| `PrefillChunks.RightsizingChangesNothing` | deploy/overlays/glm53/patch_indexer_workspace.py:178-200 | the right-sized workspace is at most the stock one and cuts every legal batch into the same chunks |
| `PrefillChunks.RightsizedIsLeast` | deploy/overlays/glm53/patch_indexer_workspace.py:191-200 | when requests come in whole entries no smaller workspace has that property |
| `PrefillChunks.LegalFits` | deploy/overlays/glm53/patch_indexer_workspace.py:35-55 | no legal batch has more entries than the right-sized workspace |
| `PrefillChunks.ChunksTile` | deploy/overlays/glm53/patch_indexer_workspace.py:212-247 | the chunks cover every query row of the batch once and in order; each is within both limits as far as it can be divided, and as long as can be: neither one more request nor one more row would fit; a group of several requests is never cut by rows |
| `PrefillChunks.GroupIsLongest` | deploy/overlays/glm53/patch_indexer_workspace.py:231-241 | each group is the longest that fits, or one request alone |
| `PrefillChunks.SplitPrefillChunks` | deploy/overlays/glm53/patch_indexer_workspace.py:225-247 | the nested loops |
| `PrefillChunks.FillGroup` | deploy/overlays/glm53/patch_indexer_workspace.py:230-241 | the inner loop |
| `PrefillChunks.SliceGroup` | deploy/overlays/glm53/patch_indexer_workspace.py:243-246 | the loop over query rows |
| `WorkspaceRebase.BuildPrefill` | deploy/overlays/dspark/flashmla_sparse.py:393-457 | request ids per token; after the in-place loop every chunk has starts counted from its own first request |
| `WorkspaceRebase.RegionsTile` | deploy/overlays/dspark/flashmla_sparse.py:425-437 | the regions of a chunk cover its workspace, each row belonging to exactly one request |
| `WorkspaceRebase.TokensStayInChunk` | deploy/overlays/dspark/flashmla_sparse.py:438-440 | every token of a slice carries a request of the chunk and its positions map into that request's region |
| `WorkspaceRebase.SlicesAreDisjoint` | deploy/overlays/dspark/flashmla_sparse.py:438-440 | no token is in the slices of two chunks |
| `WorkspaceRebase.WriteOutput` | deploy/overlays/dspark/flashmla_sparse.py:698-742 | each output row is written exactly once, by the decode kernel or by its chunk |
| `WorkspaceRebase.NumberTokens` | deploy/overlays/dspark/flashmla_sparse.py:393-402 | -1 on decode tokens, the request on prefill tokens |
| `WorkspaceRebase.CumulativeStarts` | deploy/overlays/dspark/flashmla_sparse.py:405-410 | the prefix sums |
| `WorkspaceRebase.Shift` | deploy/overlays/dspark/flashmla_sparse.py:433-434 | one chunk shifted in place, by a start read before it changes |
| `WorkspaceRebase.RebaseOne` | deploy/overlays/dspark/flashmla_sparse.py:426-434 | rebasing one chunk disturbs none before or after it |
| `Fleet.EveryRun` | lib/airo_agent/fleet.ex:75-204 | at most one live engine per port, empty iff no engine, each engine's events a story (loading, perhaps up, at most one end of the right kind), and no engine unloaded or swapped out while it ran is reported as a crash |
| `Fleet.RunKeepsInv` | lib/airo_agent/fleet.ex:75-204 | the invariant behind it is kept by every run |
| `Fleet.GoneForGood` | lib/airo_agent/fleet.ex:124-167 | an engine that left its slot never returns: late readiness reports and messages change nothing, nothing more is reported |
| `Fleet.HonestIffCareful` | lib/airo_agent/fleet.ex:75-151 | whatever follows, no crash is reported as an unload if and only if the load did not overtake the end of an engine asked to unload, or started none |
| `Fleet.OvertakingRun` | lib/airo_agent/fleet.ex:75-151 | load, unload, load from the start: the crash of the second engine is reported as an unload nobody asked for |
| `Fleet.OvertakingMisreports` | lib/airo_agent/fleet.ex:87-151 | a load that overtakes one: the crash of its engine is reported as an unload nobody asked for |
| `Fleet.CarefulRunsAreHonest` | lib/airo_agent/fleet.ex:107-151 | runs without such loads report unloads only of engines asked to unload |
| `FleetReports.EveryRunReports` | lib/airo_agent/fleet.ex:75-167 | over every run from the start: what is reported of an engine is its history; it is reported ready if and only if a report of it came while it was resident, and then its slot serves while it stays; and of each engine started exactly one holds: it is resident, its end was reported, or it was swapped out |
| `FleetReports.CrashIsDown` | lib/airo_agent/fleet.ex:137-167 | an engine reported ready that ends unasked is reported down, whatever happens on other ports meanwhile, and its slot is empty |
| `FleetReports.MarkUpServes` | lib/airo_agent/fleet.ex:124-135 | the readiness report of a resident that is loading makes its slot serve, with the same model, profile and engine, and is passed on once; any other changes nothing |
| `FleetReports.LoadSwaps` | lib/airo_agent/fleet.ex:75-105 | a load of anything but what the slot serves, another profile included, ends the resident without a report and leaves a new engine loading with model and profile asked for |
| `FleetReports.LoadStays` | lib/airo_agent/fleet.ex:46-105 | a load of what is served, on an unknown port or one held by a peer changes nothing; one that starts nothing leaves the slot empty |
| `FleetReports.UnloadEnds` | lib/airo_agent/fleet.ex:107-122 | an unload ends the resident, whose message is on its way, and notes the intent |
| `FleetReports.HandleDownReports` | lib/airo_agent/fleet.ex:137-167 | the end of a resident empties its slot and is reported as an unload if one was asked for on the port, as a crash if the engine was ever ready, as a failed start otherwise |
| `Gguf.BoundedReadIsSound` | lib/airo_agent/gguf.ex:38-74 | a prefix that yields both fields yields what any longer prefix and the whole file yield |
| `Gguf.PairWithMore` | lib/airo_agent/gguf.ex:85-92 | a pair read is read the same with more bytes behind it |
| `Gguf.TypedWithMore` | lib/airo_agent/gguf.ex:101-119 | so is every typed value |
| `Gguf.ArrayWithMore` | lib/airo_agent/gguf.ex:122-129 | and an array skipped |
| `GgufWriter.FileComesBack` | lib/airo_agent/gguf.ex:12-14 | a file written in the documented layout is read as it was written, whatever stands before, between and after: the family is the last architecture given as text and the length the last positive integer under a key ending in .context_length, among the pairs up to where both are known |
| `GgufWriter.StoredComesBack` | lib/airo_agent/gguf.ex:101-141 | every stored value is read back, integers with their sign, or skipped to its end if an array |
| `GgufWriter.FieldsAre` | lib/airo_agent/gguf.ex:64-83 | the fields kept pair by pair are those last ones |
| `GgufWriter.OnlyFiniteFloatsAreRead` | lib/airo_agent/gguf.ex:110-114 | of floating-point values exactly infinities and those that are not numbers stop the reader |
| `GrammarMatcher.XgrammarGrammar.AcceptTokens` | deploy/overlays/glm53/patch_xgrammar_termination.py:82-105 | takes the longest prefix the grammar takes up to its end; true unless a token is refused; the cached flag stays the matcher's |
| `GrammarMatcher.XgrammarGrammar.ValidateTokens` | deploy/overlays/glm53/patch_xgrammar_termination.py:125-146 | returns that prefix and leaves the matcher as it was |
| `GrammarMatcher.XgrammarGrammar.Reset` | deploy/overlays/glm53/patch_xgrammar_termination.py:153-157 | back to the start, flag included |
| `GrammarMatcher.XgrammarGrammar.Advance` | deploy/overlays/glm53/patch_xgrammar_termination.py:169-182 | advances over what the grammar takes; an error only before the end of reasoning |
| `GrammarMatcher.ValidateThenAccept` | deploy/overlays/glm53/patch_xgrammar_termination.py:171-173 | what was validated is then accepted whole |
| `GrammarMatcher.TakenIsLongest` | deploy/overlays/glm53/patch_xgrammar_termination.py:134-141 | each token of the prefix is taken by a grammar not finished, and the next is not |
| `GrammarMatcher.TakenAgain` | deploy/overlays/glm53/patch_xgrammar_termination.py:171-173 | validated tokens are accepted to the same point |
| `VideoPlaceholder.ConstructVideoPlaceholder` | deploy/overlays/glm53/patch_glm_video_placeholders.py:65-92 | exactly max(t, 1) times h * w // merge^2 embedding tokens, in blocks with their timestamps |
| `VideoPlaceholder.AlignedTimestamps` | deploy/overlays/glm53/patch_glm_video_placeholders.py:24-37 | as many timestamps as groups: all of fewer, the last repeated, the given one of none, the first for one group; when down-sampling to two or more, first and last kept and picks strictly increasing |
| `VideoPlaceholder.RoundIsNearest` | deploy/overlays/glm53/patch_glm_video_placeholders.py:37 | the pick is the nearest position, ties to even |
| `SlotMap.CircularSlotIds` | deploy/overlays/glm53/patch_kpool_tail_slotmap.py:89-110 | clamped it always succeeds; unclamped exactly when there is no overrun, otherwise it fails at the first |
| `SlotMap.NoOverruns` | deploy/overlays/glm53/patch_kpool_tail_slotmap.py:80-86 | no overruns counted if and only if every position is within the row |
| `SlotMap.SlotIsInRow` | deploy/overlays/glm53/patch_kpool_tail_slotmap.py:101-109 | a slot lies in the block of the row that the position, clamped, selects |
| `SlotMap.SharedSlots` | deploy/overlays/glm53/patch_kpool_tail_slotmap.py:101-109 | with distinct blocks two positions share a slot if and only if they share block and offset |
| `SlotMap.WindowIsDistinct` | deploy/overlays/glm53/patch_kpool_tail_slotmap.py:101-109 | on a one-block row any block-size consecutive positions have distinct slots |

## Left out

- SchedulerObject.Scheduler.Schedule: requests are values in a table from ids, not shared objects, so aliasing between the queues and the table is not captured.
- SchedulerRuns.EveryRunIsSafe: callers keep one step out at a time, do not reuse an id that is live or in the step that is out, and add only prompts within the model length; the threshold and trims do not cut padded rows (the exact condition on the threshold is SchedulerLimits.EveryRunIsSoundIff, that on the alignment trim AlignedSplit.PaddedRowIff).
- SchedulerOrder.ArrivalOrder: assumes that no request is blocked or held back; a request passed over goes to the skipped queue, which is served first.
- SchedulerStuck.EmptiesIff: of a waiting request with the length of the model nothing is claimed; it may be admitted whole or in chunks.
- SchedulerLiveness.EveryRequestFinishes: assumes that every allocation succeeds, so nothing is preempted, that no request is held back or trimmed to nothing, that grammars are ready and that chunked prefill is on.
- SchedulerOrder.RunLoopServes: assumes that allocation succeeds; nothing is claimed about who is visited after a PRIORITY preemption, where the index may pass over a request.
- SchedulerObject.Scheduler.UpdateFromOutput: pooling requests, structured output, log probabilities, routed experts and failed loads are not modelled; rows are processed in some order.
- SchedulerOrder.HeadIsLeast: requests with equal priority and arrival are not ordered further by id.
- AlignedSplit.PrefillEndsIff: the number of tokens of the request stays the same over the prefill, and each step has at least a block to spend.
- EncoderInputs.TryScheduleEncoderInputs: models without an encoder-decoder split only, and items sorted and not overlapping; the window search is the library's, modelled by its result.
- BlockFence.RunsAreSafe: a block has one owner; sharing through the prefix cache and reference counts are not modelled.
- InvalidBlocks.UpdateRequestsWithInvalidBlocks: the failure policy around the pass is not modelled.
- DsmlTheorem.RoundTrip: arguments are given as keys and values; decoding a raw JSON text of arguments first, and its fallback, are not modelled.
- PromptStability.PrefixIsStableIff: a rest whose first message joins the last of the context is left out; that the texts then differ is not proved.
- PromptStability.PrefixIsStable: with reasoning dropped the number of messages to print does not line up for developer messages in the context; nothing is claimed there.
- PromptEncoder.EncodeMessages: the tool section, the response format section and the texts of reasoning efforts are parameters; content given as a list is modelled for tool messages only, and content that is null counts as missing.
- PromptReasoning.EarlierReasoningIsGone: for thinking mode with no tools in the conversation, which is when reasoning is dropped.
- PromptMessages.SortIsStable: the built-in sort is modelled by insertion.
- PrefillChunks.RightsizedIsLeast: for spans that are not whole entries the right size rounds up and a smaller one may do.
- WorkspaceRebase.BuildPrefill: the chunk bounds are a parameter that cuts the requests into consecutive stretches; the library function that makes them is not part of this model.
- WorkspaceRebase.WriteOutput: kernels are functions from rows to values; tensors, devices and the case of a batch of decodes alone are not modelled.
- FleetReports.EveryRunReports: a model is an identity; waiting for a port, cluster ranks, runtime properties and the register of slots are not modelled; an unload leaves a message about the end of the engine at once.
- Gguf.BoundedReadIsSound: floating-point values are bits; opening and reading the file are not modelled.
- GrammarMatcher.XgrammarGrammar.AcceptTokens: the grammar library is a history with two functions; that it refuses a token without a trace and rolls back exactly is assumed, as is that no grammar is finished before it has begun.
- VideoPlaceholder.AlignedTimestamps: the division is exact, where the program divides in floating point.
- SlotMap.CircularSlotIds: positions are not negative.
- Asynchronous scheduling (output placeholders, discarded frames), pipeline-parallel step spacing, streaming sessions and resumable requests.
- KV and encoder connectors, asynchronous KV loads and their reservations, LoRA limits (a request held back stands for them).
- The KV cache manager, prefix cache and encoder cache themselves.
- Notifications of finished and preempted ids, client bookkeeping, shutdown.
- The text patches that install the overlays, GPU kernels, the HTTP router, channel client, supervisors, inventory and deployment scripts.
