# Verified models of the request orchestrator and the agent runtime

This project models the stateful parts of the gateway and of its agent runtime in Dafny and proves
what they keep over whole runs: who is charged, what the client sees, what the log says, which ids and
messages end up in a history, which workers are alive, which queue items are claimed and when.
`dafny verify dfyconfig.toml` checks everything.

## What is modelled

**The retry orchestrator** (`main.py`, `_chat_with_retry_for_model`). The source is one flat loop over
an outer index, an inner index and a flag that says whether the next round reuses the candidate.
`ChatRetryLoop` keeps that form: a class whose methods update the loop's state, the request log, the
exclusion list and the limit ledger. It is proved, for every environment and every consumer, to end in
exactly the state and with exactly the exit of the nested program in `ChatRetry` (candidates outside,
resends inside). The theorems are then proved about the nested program:

* `ChatRetryLedger` - accounting: the net change of the ledger, per account and per reservation, is the
  sum of what the ended candidates owe; each reservation closes once; a success is charged once.
* `ChatRetryDelivery` - in stream mode everything visible comes from one upstream call.
* `ChatRetryNonStream` - without streaming, what comes out and what the collector returns.
* `ChatRetryRows` - one main log row per candidate, and what stands in it.
* `ChatRetryExclusion` - the exclusion list and the penalties, exactly.
* `ChatRetryBudget` - neither retry level cuts the other short.
* `ChatRetryVerdict`, `ChatRetryEndings`, `ChatRetryExits` - which calls serve, why each candidate ended
  as it did, and what the caller sees, told from the chunks, errors, limits, key checks and the consumer.
* `ChatRetryTimes` - the log against the calls it stands for.
* `GroupFallback`, `GroupFallbackGuarantees` - the chain of backup groups under a catalog that may be
  replaced at every hop; delivery, accounting and logging carried over the whole chain.

The outside world is an oracle: key checks, selections and upstream calls answer arbitrarily, depending
on how often they were asked (selection also on the exclusion list); the consumer pulls forever or closes
the generator at any yield. `RetryPolicy` and `Reservations` model the two classifiers and the
reservation handle the loop uses, down to the lease flags that make settling and rolling back idempotent.

Exits that leave something open are part of the statements, not excluded from them. A failed or
cancelled API-key check before a resend leaves the reservation and the started row open (outcome
`Leaked`); a consumer that closes at the marker sent before moving on from an incomplete stream leaves
the row open (outcome `Abandoned`).

**The stream transformers** (`main.py`): usage merging (`StreamPayloads`), moving usage in front of the
end marker (`UsageOrdering`), and the two accumulators with the assembly of tool calls
(`StreamSummary`).

**The agent loop** (`agent/agent_loop.py`): the attempts of one turn with their two retry budgets
(`AgentAttempts`), the turns, the stop gates and the tool dispatch (`AgentTurns`, `AgentTurnLaws`), the
message history (`AgentHistory`), and the minted call ids (`ToolCallIds`).

**Small state machines**: the approval batch (`CodeRunApproval`), the TODO file as a priority queue
(`TodoLines`, `TodoFormat`, `TodoQueue`, `TodoNotes`, `TodoWorker`), the worker table kept in step with
the database (`BackgroundWorkers`), and the limiter that forgets everything when its table is full
(`LanRateLimiter`).

## Findings

Where code and documentation disagree, the model follows the code.

* Outside stream mode a response is yielded before the output rules see it, so the generator hands out
  the data of every call it makes (`ChatRetryNonStream.NonStreamConcatenatesAllCalls`), and the endpoints
  collect only the last item. That is the answer of the call that was served exactly when that call
  brought any data (`ChatRetryNonStream.ServedAnswerIsCollectedExactlyWhen`). The provider base class
  guarantees that: outside stream mode each of its generators yields exactly one item
  (`providers/base.py:1320-1322`, `:1392-1394`, `:1479-1481`, and one after the conversions behind them),
  and under this hypothesis every completed run is answered from the served call alone
  (`ChatRetryNonStream.OwnAnswerIsCollected`). The orchestrator does
  not ensure it by itself: with a generator that yields nothing, the caller would get what an earlier call
  left behind, even an answer an output rule rejected (`ChatRetryNonStream.RejectedAnswerIsCollected`).
* The reorderer's description moves only usage chunks without choices; the code moves every string chunk
  that carries usage (`main.py:3626-3633`). It is idempotent exactly on streams without a doubled end
  (`UsageOrdering.IdempotentExactlyWithoutDoubleEnd`); two end markers and then usage are the shortest
  stream that needs a second pass (`UsageOrdering.DoubleEndNeedsASecondPass`).
* The marker sent when an incomplete stream is resent on the same account (`main.py:5823-5824`) is never
  sent: the inner classifier refuses incomplete responses (`ChatRetryBudget.ResentExactlyWhen`). The
  model leaves that yield out.
* Usage merging is not associative in general. The exact condition is structural: between two objects
  stands an object, a zero, or something that the last tree overrides by absorbing the first
  (`StreamPayloads.AssociativeExactlyWhenAgreed`).
* The note put behind a failed TODO item is meant to stop the next tick from running it again as if it
  were fresh (`agent/autonomous_worker.py:112-118`). It does not: the item keeps its priority and is the
  very next claim exactly when every other item has a worse one
  (`TodoWorker.RetriedNextExactlyWhenFirst`). A note with line breaks adds whatever its further lines
  read as (`TodoNotes.RequeueAddsOneExactlyWhen`). In the orchestrator none of this happens: its dispatch
  swallows every error (`agent/background_workers.py:178-190`), so a failed item is never put back and is
  lost (`TodoWorker.ClaimedItemIsGone`).
* The short priority form of a TODO line is a special case of the general one
  (`TodoLines.ShortFormIsRedundant`).
* An autonomous worker whose configured interval is below 60 seconds is restarted by every scan, because
  the clamped interval is compared with the unclamped one
  (`BackgroundWorkers.SecondScanIsIdleExactlyWhen`).

## Model

| member | source | states |
|---|---|---|
| `ChatRetryLoop.ChatRun.ChatWithRetryForModel` | main.py:5228-5941 | the flat loop with its reuse flag ends, for every environment and consumer, in the state and with the exit of the nested program "for each candidate, for each resend"; it terminates |
| `ChatRetryLoop.ChatRun.Relay` | main.py:5577-5657 | one round: what the consumer got, whether output has started, and whether the call served, failed or was torn down, as the call and the consumer determine it |
| `ChatRetryLoop.ChatRun.PassThrough` | main.py:5577-5631 | the chunk loop passes on and holds back exactly the chunks that interception says, stops where the consumer closes, and knows whether usage and content were seen |
| `ChatRetryLoop.ChatRun.Flush` | main.py:5649-5656 | held-back chunks go out in order after the rules passed, up to the yield at which the consumer closes |
| `ChatRetryLoop.ChatRun.ReleaseCandidate` | main.py:5904-5920 | a settled reservation only gives its slot back, any other is refunded first |
| `ChatRetryLoop.ChatRun.HandleAttemptFailure` | main.py:3057-3067 | outside test mode the ended candidate is excluded, and penalised exactly when its error calls for it; with a resend pending neither happens |
| `ChatRetryLoop.ChatRun.RecordFailureToPool` | main.py:2914-2965 | one penalty at most: for an HTTP error when a freeze rule meets it, or none does and its status is 429 or at least 500, never when its channel declares otherwise; for any other error unless the answer was empty |
| `ChatRetryLoop.ChatRun.AfterFailure` | main.py:5728-5881 | after a failed call the run resends, moves on, or ends, and leaves log, ledger and exclusion list as the nested program says |
| `ChatRetryVerdict.ServedExactlyWhen` | main.py:5577-5648 | a call the consumer takes in full is served if and only if it got ready, was read to its end, met no output rule and, in stream mode, brought content or reported no usage; otherwise it fails with exactly its own error, that of an incomplete stream or that of the rule, or was cancelled |
| `ChatRetryVerdict.CallEnds` | main.py:5577-5657 | for any consumer a served call meets those conditions, a failed one has that error, and one torn down was cancelled or closed at exactly the consumer's last yield |
| `ChatRetryVerdict.SentInFull` | main.py:5618-5657 | such a call sends all it reads as it reads it; with interception on in stream mode its markers, and the data behind them only once it is served |
| `ChatRetryVerdict.StartedExactlyWhen` | main.py:5625-5631 | a call that is not served has started the output if and only if it sent data in stream mode with interception off |
| `ChatRetryEndings.RunIsExplained` | main.py:5299-5941 | every candidate of every run is the one selected under its number; each of its calls but the last was resent, within the channel's retry count, for a transient error or a retryable status, before anything was sent; the last one and the place in the run determine the outcome: succeeded with its final usage, broken off after output, refused for a request at fault, replaced while another candidate may follow, exhausted, torn down or leaked |
| `ChatRetryEndings.CallsAreResent` | main.py:2877-2912 | on one candidate each failed call is followed by another exactly while the limit, the error and the output sent allow it and the key check says yes |
| `ChatRetryExits.ExitIsExplained` | main.py:5299-5941 | a completed run was served by its last call; every error handed out is that of the last call, in mid-stream, for a refused request, or at the end of all candidates; a consumer that takes everything gets the answer of any call that serves |
| `ChatRetryExits.CloseEndsTheRun` | main.py:5628-5941 | nothing is yielded after the consumer closed, and the run ends there; it ends without answer or error only then or when the caller was cancelled |
| `ChatRetryExits.EveryCallIsChecked` | main.py:5318-5320 | every call is made behind its own check of the API key that said yes; at most the last check leads to no call, and the run ends by a rejected key if and only if that check said no |
| `ChatRetryExits.EndsAreAnnounced` | main.py:5657-5881 | the markers of a run are exactly those its candidates end with, in order |
| `ChatRetryLedger.LedgerConservation` | main.py:5717-5920 | over every run the ledger changes, for any account and any reservation, by the sum of what the ended candidates owe: one request and the settled usage when served, everything reserved when leaked, nothing otherwise |
| `ChatRetryLedger.EachReservationClosesOnce` | main.py:5904-5920 | at the end each reservation holds exactly what its outcome demands, so it was closed exactly once; a leaked one is still open |
| `ChatRetryLedger.SuccessIsChargedOnce` | main.py:1746-1756 | a completed run has settled its last candidate with the final usage, and the endpoint does not charge the channel again |
| `ChatRetryLedger.ChargesExactlyWhen` | main.py:1746-1756 | the endpoint charges the channel unless the last marker it saw is a reconciled one |
| `ChatRetryLedger.WhatALeaseLeaves` | limits/manager.py:662-757 | settling leaves one request and the real usage, none if negative; refunding leaves neither |
| `ChatRetryLedger.CandidateBalance` | main.py:5553-5920 | one candidate from reservation to end adds exactly what its outcome owes |
| `ChatRetryDelivery.StreamHasOneSource` | main.py:5582-5657 | in stream mode all visible output is a prefix of the data of the last call, all of it on completion, none with interception on unless that call ended cleanly and matched no rule, and its candidate was settled, never refunded |
| `ChatRetryDelivery.OneCall` | main.py:5577-5657 | one streaming call sends a prefix of its own data; "started" holds exactly when some was sent |
| `ChatRetryDelivery.CallsDeliver` | main.py:5822-5831 | of all calls on a candidate only the last can have sent anything |
| `ChatRetryNonStream.NonStreamConcatenatesAllCalls` | main.py:5577-5657 | for every run without streaming, whatever the consumer does, the visible output is the data of all calls made, in order, up to where the consumer closed |
| `ChatRetryNonStream.NonStreamHasOneSourceExactlyWhen` | main.py:5577-5657 | when the consumer takes everything, the output comes from one call if and only if at most one of the calls made carried data |
| `ChatRetryNonStream.CollectNonStreamResult` | main.py:4127-4149 | the collector returns the last item that is no marker, and raises when there is none or it is empty |
| `ChatRetryNonStream.ServedAnswerIsCollectedExactlyWhen` | main.py:4127-4149 | after every completed run without streaming the last item is the last data of the call that was served if and only if that call carried data; otherwise it is the last data of the earlier, failed calls, if any; an empty one is an error |
| `ChatRetryNonStream.OwnAnswerIsCollected` | main.py:4127-4149 | when every call that is read to its end carries data, as the provider base class guarantees, every completed run without streaming is answered with the served call's own last data, or an error when that is empty |
| `ChatRetryNonStream.RejectedAnswerIsCollected` | main.py:4127-4149 | without that guarantee it fails: a served call that yields nothing leaves the collector with the answer an output rule rejected |
| `ChatRetryNonStream.NonStreamMixesCalls` | main.py:5577-5648 | a run that yields a rejected answer and then the accepted one of another call, of which the collector returns the accepted one |
| `ChatRetryRows.RowDiscipline` | main.py:5553-5881 | with logging on, every tried candidate has under its own key at most one started row and exactly one final row, none if leaked or abandoned; every row belongs to a tried candidate |
| `ChatRetryRows.CallsAreLogged` | main.py:2813-2843 | the retry entries of a candidate are numbered 1..n for its n finished calls and only the last can be a success |
| `ChatRetryRows.NewRowsSettle` | main.py:5659-5881 | the final row's status is the one of its outcome and error, and its entries and duration fit |
| `ChatRetryRows.NoLogNoRows` | main.py:5553-5881 | with logging off no row is written |
| `ChatRetryTimes.LogTellsTheCalls` | main.py:2813-2843 | every tried candidate has a started row if and only if its first call got ready; each entry lasted as long as its call, at least a millisecond; the row lasted as long as all of them together, or as the call that was cut off |
| `ChatRetryTimes.DurationsAdd` | main.py:2842-2843 | the duration of a list of entries is the sum of theirs, however it is split |
| `ChatRetryExclusion.ListIsExact` | main.py:5311-5345 | the list handed to every selection of a run - also to one that finds nobody - and the list at its end is as a multiset exactly the accounts of the candidates that had ended by then by an error other than an empty answer followed by another candidate |
| `ChatRetryExclusion.PenaltiesAreExact` | main.py:2914-2965 | outside test mode exactly the candidates whose last error calls for it - frozen by rule, retryable by status, or no HTTP error and no empty answer - are penalised, each once, in order |
| `ChatRetryExclusion.NoAccountTwice` | main.py:5311-5345 | if selection honours the list, no account kept on it is served again in the same group run |
| `ChatRetryExclusion.TestsLeaveThePoolAlone` | main.py:3057-3067 | a test run excludes and penalises nobody |
| `ChatRetryExclusion.EachGroupStartsAfresh` | main.py:5230 | each group selects against what was kept since its own start |
| `ChatRetryBudget.InnerBudgetIsSpent` | main.py:2851-2912 | a candidate is given up only at its own limit or because the last failure does not qualify for a resend; the outer budget plays no part |
| `ChatRetryBudget.OuterBudgetIsSpent` | main.py:5228-5229 | at most the configured number of candidates is tried, and exactly that many before the terminal answer to a retryable failure |
| `ChatRetryShape.RunStep` | main.py:5299-5941 | any candidate's outcome determines the world it leaves and the exit or the continuation |
| `ChatRetryShape.CallsStep` | main.py:5568-5831 | one call on a candidate is either its last or failed before anything was sent and is followed by the next one |
| `ChatRetryShape.OnlyTheLastStaysOpen` | main.py:5318-5320 | only the last candidate of a run can be leaked or abandoned |
| `ChatRetryShape.IdsIncrease` | main.py:5299-5367 | candidates get their own, increasing keys |
| `RetryPolicy.InnerRetryIsNeverPreempted` | server/retry_policy.py:708-760 | a failure that qualifies for a resend is never turned into a client error or a stop |
| `Reservations.FirstSettlementWins` | server/request_reservations.py:109-157 | over any sequence of calls on a reservation handle the first decides the accounting and the slot is freed at most once |
| `Reservations.ClosedHandleOnlyFrees` | server/request_reservations.py:123-169 | once settled, rolled back or out of reach, nothing but one freed slot reaches the ledger |
| `Reservations.CandidateReservation.Settle` | server/request_reservations.py:123-134 | settling is the value-level transition of the handle, and writes exactly its ledger entries |
| `Reservations.CandidateReservation.Rollback` | server/request_reservations.py:136-151 | rolling back refunds once and gives the slot back, or only gives it back when already settled |
| `Reservations.CandidateReservation.Release` | server/request_reservations.py:153-169 | releasing frees the slot once |
| `Reservations.LimitManager.ReconcileAccountReservation` | limits/manager.py:662-719 | a lease is reconciled at most once, never after a refund, and never writes for a test lease |
| `Reservations.LimitManager.RollbackAccountReservation` | limits/manager.py:721-757 | a lease is refunded at most once and never after settling |
| `GroupFallback.RunGroupFallbackPipeline` | main.py:5063-5147 | under a catalog that may change at every hop: no group is tried twice, at most as many hops as names, each hop follows an exhausted group and its stored backup, the error is that of the last group, and the bare 429 answers only an empty model name; every hop was made for the group its own snapshot stores under the name, and goes by the backup a later snapshot stores; an exhausted chain stopped because that snapshot stores no usable backup or one that stands for a tried group |
| `GroupFallback.TryGroup` | main.py:5082-5110 | one hop is one orchestrator run for the current name, and lengthens the trail by the group the snapshot stores under it, or the name itself |
| `GroupFallback.NextBackup` | main.py:5111-5140 | there is a next name if and only if the later snapshot stores a backup for the exhausted group, knows it, and stores no tried group under it; it is that backup |
| `GroupFallback.ChainGoesByStoredNames` | main.py:5087-5093 | no two hops of a chain were made for names that stand for the same group, told by what the snapshots store |
| `GroupFallback.ChainStopsByStoredNames` | main.py:5116-5138 | the stop condition of a chain, told by what the snapshots store |
| `GroupFallbackGuarantees.ChainHasOneSource` | main.py:5085-5109 | single-source delivery holds over the whole chain: before the last group nothing visible is sent |
| `GroupFallbackGuarantees.ChainConserves` | main.py:5085-5109 | the ledger law holds over the whole chain |
| `GroupFallbackGuarantees.ChainKeepsRowDiscipline` | main.py:5085-5109 | the log discipline holds over the whole chain |
| `StreamPayloads.AssociativeExactlyWhenAgreed` | main.py:3999-4008 | merging three usage trees is associative if and only if, wherever the outer two have objects, the middle one has an object there and they agree below it, or a zero, or the last tree absorbs the first there |
| `StreamPayloads.MergeIsIncomingExactlyWhenAbsorbed` | main.py:3999-4008 | a merge gives the incoming tree back if and only if it has every key of the current one, recursively, no zero where the current one says something else, and no new zeros |
| `StreamPayloads.MergeUnderKey` | main.py:3999-4008 | under every key a missing, null, zero or false incoming value leaves what stood there, two objects are merged, and any other value overwrites |
| `StreamPayloads.MergeKeepsCounts` | main.py:3999-4008 | at any depth a value that says something stays one that does, unless the incoming tree has a plain value where the way to it had an object |
| `StreamPayloads.CountsSurvive` | main.py:4048-4058 | no sequence of chunks turns an accumulated count into zero, null or nothing |
| `StreamPayloads.LastCountStands` | main.py:4048-4058 | payloads that say nothing or zero about a key leave it as it was |
| `StreamPayloads.AssociativeOnOneShape` | main.py:3999-4008 | in particular on trees of one shape |
| `StreamPayloads.ScalarBetweenObjects` | main.py:3999-4008 | a scalar between two objects breaks associativity |
| `StreamSummary.AccumulatorsAgree` | main.py:4048-4080 | the two usage accumulators end with the same usage on any payloads |
| `StreamSummary.PackingIsInvisible` | main.py:4048-4058 | the accumulated usage depends on the payloads only, not on the chunks they come in |
| `StreamSummary.UsageAccumulator.Accumulate` | main.py:4048-4058 | one chunk folds its payloads into the usage and reports whether it carried any; no accumulated count becomes zero, null or missing |
| `StreamSummary.ToolsAreAssembled` | main.py:4076-4102 | for non-negative indices there are 1 + max index slots, and slot i holds the last id and kind and the joined names and arguments of the fragments with index i |
| `StreamSummary.AssembledAdds` | main.py:4086-4102 | each fragment adds its name and arguments and replaces id and kind unless empty |
| `StreamSummary.PutFromTheEnd` | main.py:4086-4101 | a negative index counts from the end of the slots there are and never makes a new one |
| `StreamSummary.Summary.Append` | main.py:4076-4102 | a chunk is accepted if and only if no negative tool index in all payloads so far reaches before the first slot, and then the summary is that of all payloads seen |
| `StreamSummary.NonNegativeFits` | main.py:4086-4101 | without negative tool indices every stream is accepted |
| `StreamSummary.Summary.AppendFragment` | main.py:4086-4101 | one fragment pads and fills its slot; a negative index beyond the slots raises |
| `UsageOrdering.NormalizeUsageBeforeDone` | main.py:3600-3642 | the generator yields the stream with every end marker moved behind the usage that directly follows it |
| `UsageOrdering.StepsAreNormal` | main.py:3600-3642 | the one-chunk buffer computes the whole-stream definition at every point: what is out, plus at most one held marker |
| `UsageOrdering.EndMovesBehindUsage` | main.py:3600-3642 | an end marker changes places with all the usage that directly follows it, and what comes then is treated alike |
| `UsageOrdering.UsageExactlyWhen` | main.py:3626-3633 | a chunk counts as usage if and only if it is a text chunk with a usage object in which something is not null, zero or false |
| `UsageOrdering.NormalizedIsPermutation` | main.py:3600-3642 | nothing is lost, added or doubled |
| `UsageOrdering.SubstanceIsKept` | main.py:3600-3642 | chunks other than end markers keep their order |
| `UsageOrdering.FixedExactlyWhenOrdered` | main.py:3600-3642 | a stream is left alone if and only if no end marker is directly followed by usage |
| `UsageOrdering.OrderedUnlessDoubleEnd` | main.py:3600-3642 | the result is ordered if and only if the stream has no doubled end followed by usage |
| `UsageOrdering.IdempotentExactlyWithoutDoubleEnd` | main.py:3600-3642 | normalizing twice equals normalizing once if and only if there is no doubled end followed by usage |
| `UsageOrdering.DoubleEndNeedsASecondPass` | main.py:3600-3642 | a concrete stream of two end markers and then usage is changed again by a second pass |
| `UsageOrdering.OneEndIsNoDoubleEnd` | main.py:3600-3642 | with at most one end marker that is always so |
| `AgentAttempts.Conversation.AskModel` | agent/agent_loop.py:651-881 | a turn's attempts always end, within R+3, by the text and calls of the last stream or its fallback, by their own error, or by their own interruption; a fallback is asked after exactly the streams that gave nothing and ended well or broke with an error that neither another layer, backing off nor compacting is for; no attempt follows once anything was received; each retry answers its attempt's own error; backoffs only below R and at most two compactions; an error is passed on only where no remedy is left; the shown text is the answer: after a silent stream only a network error, an overflow with both compactions spent or the last one failed, another error than a retryable 429, or one after R backoffs |
| `AgentAttempts.Conversation.Attempt` | agent/agent_loop.py:800-879 | one attempt's answer, error or interruption is that of its stream or of its fallback, which is asked exactly when the stream gave nothing and either ended well or broke with an error nothing else is for; it is repeated exactly when nothing was received and a remedy is left |
| `AgentAttempts.Conversation.RetryOrRaise` | agent/agent_loop.py:787-799 | an error is backed off from if and only if it is a retryable 429, neither a network error nor an overflow to compact for, and fewer than R attempts were made; an overflow is retried if and only if budget is left and the compaction succeeds; the history changes only then |
| `AgentAttempts.Conversation.CompactForOverflow` | agent/agent_loop.py:698-741 | it succeeds exactly when budget is left and the compaction gives a history, which then replaces the old one; a failed one costs budget and changes nothing |
| `AgentAttempts.Conversation.ReadStream` | agent/agent_loop.py:800-850 | collected parts are the non-empty deltas, all shown; the last non-empty tool list and finish reason win |
| `AgentAttempts.LateRetriesAreCompactions` | agent/agent_loop.py:42-44 | beyond the backoff budget only compactions can have led to another attempt |
| `AgentAttempts.FallsBackExactlyWhen` | agent/agent_loop.py:839-877 | the fallback is for streams without any text or call, unless they were interrupted or broke with a network error, a retryable 429 or an overflow to compact for |
| `AgentAttempts.TextAdds` | agent/agent_loop.py:818-823 | the text of an answer is that of its chunks, in order and without a separator |
| `AgentAttempts.LastOnesWin` | agent/agent_loop.py:833-838 | tool calls and finish reason are those of the last chunk that has any |
| `AgentTurns.AgentRun.Run` | agent/agent_loop.py:594-1177 | the answers of a run are the model's, asked once a turn; each turn's kind and block follow from its answer; the log is exactly, turn by turn, a gate, the use of the model, and every call behind its own gate, the last turn's up to where it was cut; its k-th gate read is the stop flag's k-th value, and its dispatches are all the uses of tools; every end has its cause; a run that neither raises nor is stopped yields one result within the turn limit, ERROR exactly when a truncated turn is the third since the last untruncated one without tools; no two calls get the same id; without automatic compaction every prompt of turn t is the initial history and the blocks of the t - 1 turns before, that is their answers' texts, one reply to each call under its id in order, and a user message each |
| `AgentTurns.AgentRun.Turn` | agent/agent_loop.py:594-1173 | unless its gate stops it, a turn asks the model once and ends the run for a stated cause or adds the one block its answer determines; its gate reads are the stop flag's own values |
| `AgentTurns.AgentRun.AskOnce` | agent/agent_loop.py:594-881 | the model is asked exactly when the stop flag reads false, the answer taken up is the one it gave, and every prompt is the history as it stood, trimmed once before when compaction is automatic |
| `AgentTurns.AgentRun.DispatchTools` | agent/agent_loop.py:964-1046 | calls run in order, each exactly when the stop flag read before it is false; malformed arguments get a reply without reaching a tool, an exit stops the batch, the last non-empty continuation wins; the batch is cut only by a tool that raised or was interrupted or by the stop flag |
| `AgentTurns.AgentRun.FinishPlain` | agent/agent_loop.py:898-941 | a turn without tools ends as truncated, oversized or final by the two detectors; the run goes on after the first two truncations and after a code block, with the answer and then the note appended to the history; nothing is appended when it ends |
| `AgentTurns.AgentRun.FinishTools` | agent/agent_loop.py:943-1173 | a refused batch raises before any call; otherwise the turn handles its calls in order up to where a tool or the stop flag ends it, or adds the answer, one reply per call in order, and the continuation they ask for; the history grows by exactly these messages, or not at all |
| `AgentTurns.AgentRun.SayTools` | agent/agent_loop.py:1149-1173 | all declared calls of the answer go through the filter on executed ids, then come one reply per executed call and the continuation |
| `AgentTurns.AgentRun.AppendTools` | agent/agent_loop.py:1149-1173 | after a full batch the declared calls and the replies have the same ids in the same order |
| `AgentTurns.IncreasingIdsAreDistinct` | agent/agent_loop.py:1002 | ids minted in turn and position order are pairwise distinct |
| `AgentHistory.ExecutedKeepsAllExactlyWhen` | agent/agent_loop.py:1151-1152 | the filter drops nothing if and only if every declared call was executed |
| `AgentTurns.RenderTells` | agent/agent_loop.py:898-1173 | the blocks of a run are messages that tell its answers: text, ids minted by turn and position, a reply to each call in order, and a user message |
| `AgentTurnLaws.PromptsAlternate` | agent/agent_loop.py:594-1177 | without automatic compaction everything behind the initial history in every prompt is an assistant message with k ids, k replies to them in order, and a user message, over and over |
| `AgentTurnLaws.CallEventsAt` | agent/agent_loop.py:964-1020 | call i of a turn leaves its own gate read and its dispatch or rejection under the id minted for it |
| `AgentTurnLaws.LastContinuationWins` | agent/agent_loop.py:1044-1053 | the continuation of a turn is that of its last call that asks for one |
| `AgentTurnLaws.StreakCounts` | agent/agent_loop.py:898-925 | the counter holds the truncated turns since the last turn that reset it |
| `AgentTurnLaws.ErrorExactlyWhen` | agent/agent_loop.py:898-913 | a run yields an error if and only if its last turn was truncated and at least the third since the last reset |
| `ToolCallIds.MintIsInjective` | agent/agent_loop.py:1002 | within a run an id determines turn and position |
| `ToolCallIds.DecimalRoundTrip` | agent/agent_loop.py:1002 | decimal notation reads back as the number |
| `CodeRunApproval.CodeRunApprovalBatch.Prepare` | agent/code_run_approval.py:66-143 | leftovers never survive; what may be spent is all of the batch, all of it denied, or nothing, as the mode and the verdict say; a scan that raises leaves nothing |
| `CodeRunApproval.CodeRunApprovalBatch.DecisionFor` | agent/code_run_approval.py:145-153 | the first entry for the script is answered and spent, no other is touched |
| `CodeRunApproval.AllowedAsOftenAsApproved` | agent/code_run_approval.py:125-153 | after an allowed batch the i-th query is allowed exactly when its script was asked for fewer times before than it occurs in the batch, in any order of queries |
| `CodeRunApproval.SpendTakesOne` | agent/code_run_approval.py:145-153 | one query takes one occurrence of its script off the books and nothing else |
| `CodeRunApproval.OtherwiseNothingIsAllowed` | agent/code_run_approval.py:66-143 | unattended, denied, expired, interrupted or unreadable batches allow nothing |
| `CodeRunApproval.BatchHoldsEveryCall` | agent/code_run_approval.py:66-143 | the approved batch allows each script as often as calls ask for it, an unreadable one counting as the empty default, under the confirmation given |
| `CodeRunApproval.ScriptsFailExactlyWhen` | agent/code_run_approval.py:66-85 | a batch cannot be read if and only if the scan of one of its calls raises |
| `TodoLines.ShortFormIsRedundant` | agent/autonomous_worker.py:42-58 | both forms of a priority tag read the same priority and text |
| `TodoFormat.TaggedReads` | agent/autonomous_worker.py:36-63 | a line with a closed bracket in front is an item of the priority the tag names, with the text behind it, or none without text; under any other tag it is one of the lowest priority, whole |
| `TodoFormat.UntaggedReads` | agent/autonomous_worker.py:36-63 | any other line that is no comment is an item of priority 99, whole |
| `TodoFormat.CommentsAreNoItems` | agent/autonomous_worker.py:37-39 | blank lines and comments are no items |
| `TodoFormat.WrittenTaskReads` | agent/autonomous_worker.py:36-63 | a task written with its priority in decimal reads back as that priority and text |
| `TodoFormat.StripIsSlice` | agent/autonomous_worker.py:37 | stripping takes white space off both ends and nothing else |
| `TodoQueue.RewriteThenRead` | agent/autonomous_worker.py:94-110 | writing items and reading them back is the identity |
| `TodoQueue.EntriesJoin` | agent/autonomous_worker.py:94-102 | the text before and after any line break is read independently |
| `TodoQueue.UniversalIsHarmless` | agent/autonomous_worker.py:98 | translating carriage returns on reading changes no item |
| `TodoQueue.EntriesIgnoreStrip` | agent/autonomous_worker.py:122 | stripping a text changes no item |
| `TodoNotes.NotedParses` | agent/autonomous_worker.py:112-125 | a one-line note keeps an item's priority and only extends its text, whatever brackets the line has |
| `TodoNotes.RequeueAppends` | agent/autonomous_worker.py:112-125 | for any note the file keeps its items and gains the noted one at the end, then whatever the note's further lines read as |
| `TodoNotes.RequeueAddsOneExactlyWhen` | agent/autonomous_worker.py:112-125 | exactly one item comes back if and only if the note's further lines read as nothing |
| `TodoWorker.AutonomousWorker.ReadQueue` | agent/autonomous_worker.py:94-102 | reading gives the items of the file |
| `TodoWorker.AutonomousWorker.RewriteQueue` | agent/autonomous_worker.py:104-110 | the rewritten file reads as the other items; identical lines go together |
| `TodoWorker.AutonomousWorker.ClaimIfIdle` | agent/autonomous_worker.py:139-160 | when idle the best item is claimed and leaves the file, else nothing changes |
| `TodoWorker.AutonomousWorker.RunTick` | agent/autonomous_worker.py:167-183 | a tick dispatches at most the best item; success removes it, failure puts it back noted |
| `TodoWorker.AutonomousWorker.Run` | agent/autonomous_worker.py:185-191 | every run of ticks is a chain of such steps |
| `TodoWorker.PromptsExactlyWhen` | agent/autonomous_worker.py:139-160 | a tick dispatches if and only if there is a queue and the last activity is known and at least the interval ago; the prompt is the text of the first item of the best priority |
| `TodoWorker.IdleRunDrains` | agent/autonomous_worker.py:139-183 | while idle and successful, the i-th prompt is the i-th item of the drained queue, then none |
| `TodoWorker.DrainIsStableSort` | agent/autonomous_worker.py:154-158 | draining is the stable sort by priority with identical lines collapsed |
| `TodoWorker.StableSortIsUnique` | agent/autonomous_worker.py:154-158 | there is only one such order |
| `TodoWorker.FileDrainsInOrder` | agent/autonomous_worker.py:94-160 | every file drains in that order |
| `TodoWorker.RetriedNextExactlyWhenFirst` | agent/autonomous_worker.py:112-125 | after a failure with a one-line note the item is the very next claim if and only if all others have a worse priority |
| `TodoWorker.ClaimedItemIsGone` | agent/background_workers.py:178-190 | with a dispatch that never raises, every claimed item has left the file for good |
| `BackgroundWorkers.AgentBackgroundOrchestrator.ReconcileWorkers` | agent/background_workers.py:82-109 | after a scan the table holds exactly the enabled agents, each with a reflect worker, with an autonomous one iff flagged and on the clamped interval; exactly the listed workers were started; every worker ever started is in its slot or cancelled; a worker's interval is 1800 for null and zero, else what the row says, but at least 60 |
| `BackgroundWorkers.AgentBackgroundOrchestrator.ReconcileRow` | agent/background_workers.py:93-105 | one row changes only its own agent and starts exactly what is missing or out of date |
| `BackgroundWorkers.AgentBackgroundOrchestrator.EnsureReflect` | agent/background_workers.py:111-120 | a reflect worker is started exactly when there is none |
| `BackgroundWorkers.AgentBackgroundOrchestrator.EnsureAutonomous` | agent/background_workers.py:122-141 | for any agent, with an entry or without, an autonomous worker is replaced exactly when its interval differs from the asked one |
| `BackgroundWorkers.AgentBackgroundOrchestrator.StopAutonomous` | agent/background_workers.py:143-157 | the slot is emptied and its worker cancelled, nothing else changes |
| `BackgroundWorkers.AgentBackgroundOrchestrator.StopAgent` | agent/background_workers.py:159-176 | the agent leaves the table and all its workers are cancelled |
| `BackgroundWorkers.AgentBackgroundOrchestrator.StopUnlisted` | agent/background_workers.py:106-109 | exactly the agents without a row leave the table |
| `BackgroundWorkers.AgentBackgroundOrchestrator.ScanLoop` | agent/background_workers.py:71-80 | n scans of the same rows start what the first one must and then, in each further scan, exactly the workers with an interval below the minimum |
| `BackgroundWorkers.AgentBackgroundOrchestrator.Stop` | agent/background_workers.py:40-68 | stopping a running orchestrator leaves no worker uncancelled |
| `BackgroundWorkers.SecondScanIsIdleExactlyWhen` | agent/background_workers.py:122-141 | a second scan of the same rows starts nothing if and only if no flagged row asks for an interval below 60, zero aside |
| `BackgroundWorkers.IdleScanChangesNothing` | agent/background_workers.py:82-141 | and then it leaves the table as it was |
| `BackgroundWorkers.SettledRestarts` | agent/autonomous_worker.py:77 | on a settled table a scan starts one worker for each clamped interval |
| `LanRateLimiter.RateLimiter.Allow` | lan_discovery.py:107-116 | every call is the next step of the run it belongs to |
| `LanRateLimiter.TableIsBounded` | lan_discovery.py:112-115 | the table never exceeds 256 entries |
| `LanRateLimiter.RefusedExactlyWhen` | lan_discovery.py:107-116 | a query is refused if and only if its key was last allowed less than 0.5 s before and nothing was cleared since |
| `LanRateLimiter.ClearedExactlyWhen` | lan_discovery.py:112-114 | the table is cleared if and only if a key it does not hold is asked for while it holds 256 others |
| `LanRateLimiter.TableHolds` | lan_discovery.py:107-116 | the table holds exactly the keys allowed since the last clear, with the time of their last allow |
| `LanRateLimiter.SuccessiveAllowsAreSpaced` | lan_discovery.py:107-116 | successive allows of a key are 0.5 s apart or something was cleared in between |
| `LanRateLimiter.AllowsAreSpaced` | lan_discovery.py:107-116 | any two allows of a key closer than 0.5 s have a clear strictly between them |
| `LanRateLimiter.WindowBound` | lan_discovery.py:107-116 | in a window of length t a key is allowed at most floor(t / 0.5) + 1 times plus the clears in the window |
| `LanRateLimiter.ClearsArePaidFor` | lan_discovery.py:112-114 | after c > 0 clears at least 256 c + 1 allows have happened |

## Left out

- ChatRetryNonStream.CollectNonStreamResult: does not add the route information and the first-token time to the answer.
- The media and speech loops (`main.py:6502-6736`, `main.py:6782-7016`): the same machine as the chat loop with one log row per call.
- Selection raising anything but "no account available", and that error coming from anywhere but selection; candidates without a provider name.
- Timeouts and failures of the store behind the ledger, background refund retries, freezing after reconciliation, and cancellation that arrives inside an awaited settlement, refund or log write.
- The windows and limits that decide whether a reservation is granted; a granted one is what selection returns.
- Health statistics, routing times, response headers and bodies in log rows; a row is its key, status, retry entries and duration.
- How the usage of an interrupted or finished call is estimated: the amounts to settle are given with the call.
- Text of errors, the code and status chosen for a terminal 429, and the raw error shown in test mode: an exit names the error it is made from.
- The API-key reservation around the endpoints, and the endpoints themselves apart from the channel charge after a success.
- Parsing of server-sent events and the nesting of usage inside payloads: chunks are given as their payloads.
- `update` hooks, callbacks that raise, sub-agent events, reminders and anchors: the end of a tool turn adds an arbitrary `suffix` to the continuation prompt.
- Content of tool replies and arguments kept in the history; the detectors for truncation and code blocks, the history trimming and the compaction are arbitrary functions.
- Dictionaries of tool calls shared between the answer and the history: messages are values.
- The canonical text of a script in the approval batch is its three normalized parts; confirmation texts and waiting are not modelled, only the verdict.
- Digits outside ASCII in a TODO priority, numbers too long for Python to convert, unreadable files, and a TODO file edited while an item is being dispatched.
- The clock, file times and the conversation store of the TODO worker: each tick is given the current time and the last activity.
- What a worker does once it runs, and exceptions of its `stop`; a scan whose query fails reads `None`.
- Database, cache and log stores, routing, HTTP wiring, attachments, media and text heuristics.
