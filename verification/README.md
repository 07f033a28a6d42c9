# Verification of the AI runtime's run executor, event delivery and worker network rules

This project models four parts of the repository in Dafny and proves what they promise.

**The run executor** (`packages/ai-runtime/src/run-executor.ts`). `streamRunEvents` drives one
assistant run through provider attempts, retries, one fallback, a circuit breaker, tool calls,
usage accounting, buffered reasoning summaries, timeouts and cancellation. `RunSpec` says what a
run does as a function of its configuration and of a script of its environment: what the parameter
resolver, the adapter's stream, the tool executor and the retry delay answer in each pass of the
attempt loop, what other runs do to the shared breaker, and when the parent signal aborts or the
idle timer fires. A script is arbitrary, so a theorem about every script is a theorem about every
run. `RunExecutor` is the generator in its own form, an object with the generator's variables as
fields, and is proved equal to `RunSpec`. A run leaves a history of the events it yields and of
everything it does outside, with every chunk an attempt could use and every tool's outcome
(`RunLog`). `RunInvariants` says what every step keeps; `RunTheorems`, `RunConversations`,
`RunEscapes` and `RunRetries` what holds of every run. `RunReading` tells from the script alone which
chunks an attempt uses and what they make it say and buffer, `RunAnswers` is a table of what a pass
of the loop answers, row by row, and `RunPasses` what that table says of whole runs. The
collaborators are classes of their own,
each proved against a plain specification: `CircuitBreaker`, `UsageTracker`, `ReasoningSummary`,
`StreamRuntime`, with `RetryPolicy` beside them.

**Events and server-sent events** (`packages/ai-runtime/src/events.ts`, `sse.ts`). `RunEvents` is
the envelope and the public filter, `Json` and `Text` the little JSON and text it needs, `JsonReader`
a reader that undoes that printing, and `Sse` the wire format together with the reader of sections 9.2.5 and 9.2.6 of the WHATWG HTML Living
Standard, which undoes it. `SseDelivery` is the bounded, heartbeat-interleaved delivery loop over a
readable stream, cut at its awaits into steps that may come in any order; `SseOutcomes` says what its
endings were caused by and that it can always be brought to a good one; `SseStream` is the same
loop as an object over encoded text, with the controller's queue and its running total, proved to
follow those steps. `PublicReasoning` and `RunOverSse` put a run in front of the filter and of the
delivery loop.

**Network addresses** (`packages/cli/src/network-host-policy.ts`). `Bits` gives the meaning of the
bit operators, `Ipv4` of the CIDR masks, `Ipv6` of the text parser against the spellings of
section 2.2 of RFC 4291, `NetworkPolicy` of the IPv6 group masks, and `NetworkHost` of the whole
decision.

**Broker claim tokens** (`packages/cli/src/broker-worker-clients.ts`, `knowledge-worker.ts`).
`BrokerWorker` is the knowledge extraction worker's claim-then-settle protocol.

## What the proofs found

- A run can end without a terminal event. `tryFallback` awaits the fallback's parameters
  (`run-executor.ts:465`), and its callers (lines 114, 134 and 435) stand outside any handler that
  would yield one. The guard is `RunEscapes.PassEscapesExactly`: a pass escapes exactly when the
  fallback's parameters are refused in it, a fallback is configured and not yet used, nothing has
  been said, and the active provider is switched off, or its circuit is open, or its attempt has
  failed without being cancelled and cannot be retried. For whole runs: a run escapes exactly when
  it comes to such a pass (`RunEscapes.RunEscapesExactly`), and some run of a configuration escapes
  exactly when the configuration has a fallback, whatever the circuit breaker has seen
  (`RunEscapes.EscapePossibleExactly`, with the run in `RunEscapes.FatalRunEscapes`). The traces of
  runs that do not escape are finished; everything else is said of all runs.
- A cancelled event stream can still report a slow consumer, and a failed heartbeat
  (`sse.ts:60-73`, `116-129`): a closed stream has no capacity, so one more frame waits, and after a
  cancel only the timer can end that wait. `SseDelivery.DropsAfterCancelExactly` says when, for
  whatever the loop was doing at the cancel, and `SseDelivery.CancelledRunDropsExactly` for whole
  runs: the wait had timed out before the cancel and the loop goes on, or the source was awaited,
  one more frame is offered, and its wait times out. A frame that was offered or waiting otherwise
  settles without a drop. `SseDelivery.CancelledStreamReportsDrop` is a concrete run. A frame that
  was already waiting when the cancel came makes `onBufferedBytes` report the whole limit although
  nothing is buffered (`SseDelivery.BufferedBytesReport`).
- Once the delivery loop waits for capacity, reading does not help unless the stream calls `pull`
  (`SseDelivery.WithoutPullAWaitIsFinal`), which section 4.9.4 of the WHATWG Streams Standard does
  not do before the promise of `start` has settled; here `start` is the whole loop.
- `expandIpv6` accepts one form the RFC does not have, a dotted quad before `::`
  (`Ipv6.ParserVersusStandard`, `Ipv6.DottedLeftIsAccepted`). `isIP` keeps it from ever being asked.
- The knowledge worker's second completion, which should report a failed extraction, never reaches
  the broker: the first completion has already given the claim token up
  (`BrokerWorker.FailureIsNeverReported`, with a run in `BrokerWorker.RefusedExtractionStaysLocal`;
  `broker-worker-clients.ts:150-160`, `knowledge-worker.ts:58-66`).

## Model

| member | source | states |
|---|---|---|
| RunTheorems.EveryTraceIsFinished | packages/ai-runtime/src/run-executor.ts:48-483 | Every run that does not escape yields events numbered from 1 of which exactly the last is terminal, opened by an optional run.started and message.started unless the initial parameters were refused, with message.completed only right before run.completed, summary text only in one block before a kept summary that counts its characters, and one reasoning notice and one settled summary at most between two message.started |
| RunTheorems.EscapedTraceIsUnfinished | packages/ai-runtime/src/run-executor.ts:463-482 | A run that escapes is numbered and opened in the same way, has no terminal event and has said nothing |
| RunTheorems.RunsAreBounded | packages/ai-runtime/src/run-executor.ts:105-109 | The attempt loop turns, and streamChat is called, at most max(0, tool budget) + 2 maxRetries + 2 times, whatever the providers are |
| RunTheorems.OneTargetSpeaks | packages/ai-runtime/src/run-executor.ts:366-376 | All deltas of a run come from one provider target, across retries, fallback and tool calls, and together they are the content and the completed message |
| RunTheorems.CompletedMessageIsAllDeltas | packages/ai-runtime/src/run-executor.ts:373-387 | In a completed trace the last but one event is message.completed with all deltas concatenated |
| RunTheorems.AbortSilences | packages/ai-runtime/src/run-executor.ts:202-216 | After the parent signal has aborted no delta follows in any run |
| RunTheorems.EveryCallIsPermitted | packages/ai-runtime/src/run-executor.ts:110-149 | Each streamChat call has its own pass of the circuit breaker, not used by another, never goes to the kill-switched primary, and only failures that count against health are recorded |
| RunConversations.EveryTokenIsSaid | packages/ai-runtime/src/run-executor.ts:366-371 | In every run the deltas are exactly the tokens the attempts could use, one delta for each token, in order, none more than one chunk behind; so their text together is the text of all those tokens |
| RunPasses.RunSaysItsScript | packages/ai-runtime/src/run-executor.ts:202-371 | Pass by pass, the chunks a run uses are none or exactly those its pass's stream delivers up to its first end, failure, signal or tool request; so a run's deltas are those chunks' tokens |
| RunReading.ReadsWhatIsSettled | packages/ai-runtime/src/provider-stream-runtime.ts:56-71 | The chunks read on from are exactly the pulls the runtime settles with a usable chunk, up to the first that settles otherwise or asks for tools |
| RunReading.ReadsToTheLast | packages/ai-runtime/src/run-executor.ts:202-371 | An attempt comes to the pull that ends its reading having said a delta for each token, shown at most one notice, buffered the cut summary texts with the first one's time, and measured the reports |
| RunTheorems.ConversationsAreConserved | packages/ai-runtime/src/run-executor.ts:324-342 | Every streamChat call sends the input history followed by answered tool requests, the same as before or one request more; the assistant texts in them and the current text are the content |
| RunConversations.ToolResultsAreSent | packages/ai-runtime/src/run-executor.ts:267-341 | Between two streamChat calls of any run at most one batch is requested, its tools run in order up to the first that does not return, and the later call sends what the earlier one sent followed by that batch and, for its i-th call, what its i-th tool returned |
| RunConversations.ConversationsSayWhatWasHeard | packages/ai-runtime/src/run-executor.ts:324-342 | The assistant texts of the conversation each call sends are exactly the tokens heard before it |
| RunTheorems.UsageIsConserved | packages/ai-runtime/src/run-executor.ts:218-229 | The usage segments are exactly what the calls' usage reports add up to, one for each streamChat call that reported anything, in order, with its own target; the terminal event shows them and their totals, never more reasoning than output tokens |
| RunLog.MeterMeans | packages/ai-runtime/src/provider-usage-tracker.ts:15-34 | The tracker's open and finished segments are the reports of the last call and of the calls before it |
| RunTheorems.MeasuredCalls | packages/ai-runtime/src/run-executor.ts:218-222 | There is one measurement for each streamChat call, of that call's target |
| RunTheorems.NoSegmentOpenBetweenAttempts | packages/ai-runtime/src/run-executor.ts:406 | A pass that comes back to the head of the loop leaves no open usage segment |
| RunTheorems.ToolBudgetHolds | packages/ai-runtime/src/run-executor.ts:249-324 | The tool executor is called at most max(0, budget) times in a run |
| RunTheorems.LimitNamesFirstCallPastBudget | packages/ai-runtime/src/run-executor.ts:249-265 | An over-budget batch runs none of its calls, and its failure names the first call that does not fit, which is one of the batch |
| RunTheorems.SummariesAreSettled | packages/ai-runtime/src/run-executor.ts:152-159 | In every run, escaping or not, every attempt that buffered a summary settles it exactly once before the attempt ends, and nothing else is settled |
| RunLog.TraceCountsBlocks | packages/ai-runtime/src/reasoning-summary-tracker.ts:43-57 | A kept summary's count is exactly the characters of the block of texts before it |
| RunTheorems.PayloadErrorsLeaveRecords | packages/ai-runtime/src/run-executor.ts:399-403 | A failure of the client's own payload leaves every record of the breaker as it was |
| RunTheorems.RefusedRun | packages/ai-runtime/src/run-executor.ts:58-69 | A run whose initial parameters are refused yields one run.failed and touches neither provider nor breaker |
| RunTheorems.AttemptsKeep | packages/ai-runtime/src/run-executor.ts:109-461 | From any state at the head of the loop the run ends over or adrift, within its measure |
| RunAnswers.AttemptEnds | packages/ai-runtime/src/run-executor.ts:130-217 | An attempt calls its target once with the conversation and the parameters just resolved, after asking the breaker, and comes to the end its script gives it: completed, cut off, broken with an error, or asked for tools |
| RunAnswers.CompletedPass | packages/ai-runtime/src/run-executor.ts:373-387 | A stream that ends adds the kept summary, message.completed with all text of the run and run.completed with the evidence, the retries and the fallback, and the breaker hears of the success |
| RunAnswers.CancelledPass | packages/ai-runtime/src/run-executor.ts:207-213 | An attempt whose first signal is the parent's adds the discarded summary and run.cancelled, and the breaker hears nothing |
| RunAnswers.RetriedPass | packages/ai-runtime/src/run-executor.ts:404-433 | A failure that may be retried, in a run that has said nothing, is counted and the loop turns, announcing the message again after reasoning; or the run is cancelled while it waits |
| RunAnswers.SwitchedPass | packages/ai-runtime/src/run-executor.ts:463-482 | A failure that is not retried makes a run that has said nothing change over to its fallback, from the target that failed to the configured one, with the failure's code as the reason; or escape |
| RunAnswers.FailedPass | packages/ai-runtime/src/run-executor.ts:388-452 | Otherwise run.failed tells the failure, provider_timeout for a timed-out attempt whatever was thrown, the circuit unless it is closed, the fallback and the retries |
| RunAnswers.BarredPass | packages/ai-runtime/src/run-executor.ts:110-149 | A provider that is switched off or whose circuit is open is not called: the run falls back, escapes, or fails with that reason |
| RunAnswers.RefusedToolsPass | packages/ai-runtime/src/run-executor.ts:226-265 | A tool request without an executor or past the budget settles the summary, announces the batch and fails naming the first call or the first past the budget |
| RunAnswers.StoppedToolsPass | packages/ai-runtime/src/run-executor.ts:267-322 | The first tool of a batch that does not return ends the run: a dispatch waits, approval is asked for exactly when that is the error's code, and any other error fails |
| RunAnswers.AnsweredToolsPass | packages/ai-runtime/src/run-executor.ts:324-343 | When every tool returns the loop turns with the request, the text said since the last one, and each tool's result in its place |
| RunPasses.PassUses | packages/ai-runtime/src/run-executor.ts:109-461 | Whatever becomes of a pass, it uses exactly its script's chunks and makes at most one call |
| RunPasses.RouteIsReported | packages/ai-runtime/src/run-executor.ts:379-387 | A finished run reports all its retries and no fallback, or exactly the change from the primary to the configured fallback, which is then the target it ended with |
| RunPasses.CompletesAtOnce | packages/ai-runtime/src/run-executor.ts:48-387 | The whole trace of a run whose first stream ends without a signal: the opening, deltas and notice, the settled summary, the completed message and the completed run |
| RunPasses.RefusedRunTells | packages/ai-runtime/src/run-executor.ts:58-69 | A run whose initial parameters are refused yields exactly run.failed with what was thrown |
| RunPasses.DefaultBudgets | packages/ai-runtime/src/run-executor.ts:107 | Without a configured limit a run calls at most four tools |
| RunEscapes.PassEscapesExactly | packages/ai-runtime/src/run-executor.ts:463-482 | A pass escapes exactly when there is a fallback, nothing has been said, its parameters are refused, and the active provider is switched off, its circuit is open, or its attempt failed, was not cancelled and cannot be retried; with the parameters resolved it switches in exactly those cases |
| RunEscapes.RunEscapesExactly | packages/ai-runtime/src/run-executor.ts:109-150 | A run escapes exactly when it comes to such a pass |
| RunEscapes.EscapePossibleExactly | packages/ai-runtime/src/run-executor.ts:463-482 | Some run of a configuration escapes exactly when it has a fallback, whatever the breaker has seen |
| RunEscapes.FatalRunEscapes | packages/ai-runtime/src/run-executor.ts:435-440 | For every configuration with a fallback, the run whose first attempt fails for good and whose fallback's parameters are refused escapes |
| RunEscapes.NoFallbackRunNeverEscapes | packages/ai-runtime/src/run-executor.ts:464 | Without a fallback no run escapes |
| RunEscapes.RefusedLoopEscapes | packages/ai-runtime/src/run-executor.ts:109-150 | Refusing every fallback makes exactly those runs escape that resolving it would have switched |
| RunEscapes.TurnEscapesExactly | packages/ai-runtime/src/run-executor.ts:463-482 | Of two passes that differ only in the answer to the fallback's resolution, the refused one escapes exactly when the resolved one switches, and otherwise both do the same |
| RunEscapes.ResolvedFallbacksNeverEscape | packages/ai-runtime/src/run-executor.ts:463-482 | If the fallback's parameters always resolve no run escapes |
| RunEscapes.EscapeHasRefusal | packages/ai-runtime/src/run-executor.ts:463-482 | An escape happens in a pass whose fallback resolution was refused |
| RunEscapes.SwitchedOffRunEscapes | packages/ai-runtime/src/run-executor.ts:110-128 | With the primary switched off and a fallback configured the run escapes exactly when the fallback's parameters are refused, and its trace stops at message.started |
| RunEscapes.NoRetryAfterDelta | packages/ai-runtime/src/run-executor.ts:408-440 | Once a delta is out no pass retries or falls back; a retry or fallback sends the same messages again |
| RunInvariants.TakeTurnKeeps | packages/ai-runtime/src/run-executor.ts:109-461 | One pass of the loop keeps the whole invariant and lowers tool budget left + (fallback ? 1 + maxRetries : 0) + retries left |
| RunInvariants.ConsumeKeeps | packages/ai-runtime/src/run-executor.ts:202-371 | Reading the stream keeps the invariant of an attempt, however it ends |
| RunInvariants.OnToolCallsKeeps | packages/ai-runtime/src/run-executor.ts:226-343 | A tool request keeps the invariant: it stops the run with evidence or continues with an answered request |
| RunInvariants.ConversationContinues | packages/ai-runtime/src/run-executor.ts:324-339 | Adding one assistant message and its answers conserves the conversation and the text |
| RunInvariants.CatchKeeps | packages/ai-runtime/src/run-executor.ts:388-452 | A failed attempt is settled, reported and closed, and the run then retries, falls back, fails or escapes within the measure |
| RunLog.AcceptedTrace | packages/ai-runtime/src/sse.ts:152-160 | An accepted, closed history has the trace of a finished run |
| RunLog.AcceptedSource | packages/ai-runtime/src/run-executor.ts:366-370 | An accepted history's deltas all come from the target of the same streamChat calls |
| RunLog.AcceptedSettles | packages/ai-runtime/src/reasoning-summary-tracker.ts:35-58 | In an accepted history each buffered summary is settled exactly once within its attempt |
| RunExecutor.ExecuteRun | packages/ai-runtime/src/run-executor.ts:485-499 | The events are the run's, and the content is all its deltas and, if the run completes, its completed message |
| RunExecutor.StreamRunEvents | packages/ai-runtime/src/run-executor.ts:48-483 | The imperative generator yields exactly the specified run's events on the given breaker, and a finished trace unless it escapes |
| RunExecutor.Executor.AttemptOnce | packages/ai-runtime/src/run-executor.ts:110-149 | One pass of the attempt loop is the specified turn |
| RunExecutor.Executor.CallProvider | packages/ai-runtime/src/run-executor.ts:151-200 | The call of one provider, its parameters resolved or refused, is the specified one |
| RunExecutor.Executor.ConsumeStream | packages/ai-runtime/src/run-executor.ts:202-371 | Reading the stream is the specified consumption |
| RunExecutor.Executor.HandleToolCalls | packages/ai-runtime/src/run-executor.ts:226-343 | A tool request is handled as specified: refused, over budget, stopped or continued |
| RunExecutor.Executor.RunToolCalls | packages/ai-runtime/src/run-executor.ts:267-322 | The tools run in order up to the first that does not return |
| RunExecutor.Executor.CatchFailure | packages/ai-runtime/src/run-executor.ts:388-452 | The catch block settles, reports, retries, falls back or fails as specified |
| RunExecutor.Executor.CompleteRun | packages/ai-runtime/src/run-executor.ts:373-387 | The end of the stream settles the summary, reports success and completes the run |
| RunExecutor.Executor.TryFallback | packages/ai-runtime/src/run-executor.ts:463-482 | Nothing changes without a fallback or after a delta; otherwise the target switches or the run throws |
| CircuitBreaker.OpenExactlyWhen | packages/ai-runtime/src/provider-circuit-breaker.ts:13-69 | A provider is not closed exactly when its failures since its last success reach the threshold, and open exactly when moreover every attempt since the last failure fell within the cooldown |
| CircuitBreaker.OtherProvidersDoNotMatter | packages/ai-runtime/src/provider-circuit-breaker.ts:14-50 | A provider's snapshot depends only on the calls on that provider |
| CircuitBreaker.NoThresholdNeverOpens | packages/ai-runtime/src/provider-circuit-breaker.ts:53 | Without a positive threshold the circuit stays closed |
| CircuitBreaker.CountTellsState | packages/ai-runtime/src/provider-circuit-breaker.ts:52-68 | A circuit is closed exactly while its count is below the threshold, and then the count is the failures since the last success |
| CircuitBreaker.CountExactly | packages/ai-runtime/src/provider-circuit-breaker.ts:52-68 | The reported count is the threshold and the failures since the last failed probe, or all failures since the last success when no probe has failed since |
| CircuitBreaker.ProviderCircuitBreaker.BeforeAttempt | packages/ai-runtime/src/provider-circuit-breaker.ts:23-40 | The answer and the records are those of the history with this call added |
| CircuitBreaker.ProviderCircuitBreaker.RecordFailure | packages/ai-runtime/src/provider-circuit-breaker.ts:52-68 | The answer and the records are those of the history with this call added |
| CircuitBreaker.ProviderCircuitBreaker.RecordSuccess | packages/ai-runtime/src/provider-circuit-breaker.ts:42-46 | The answer and the records are those of the history with this call added |
| UsageTracker.AggregateUsage | packages/ai-runtime/src/provider-usage-tracker.ts:56-75 | The loops compute the aggregate |
| UsageTracker.Aggregate | packages/ai-runtime/src/provider-usage-tracker.ts:56-75 | A field is defined exactly when every segment defines it, and is then their sum |
| UsageTracker.EvidenceWithinOutput | packages/ai-runtime/src/provider-usage-tracker.ts:15-28 | The aggregate never shows more reasoning than output tokens |
| UsageTracker.EvidenceIsIdempotent | packages/ai-runtime/src/provider-usage-tracker.ts:40-53 | Asking for the evidence twice gives the same and leaves nothing open |
| UsageTracker.EvidenceMeans | packages/ai-runtime/src/provider-usage-tracker.ts:40-75 | The evidence is the finished segments and the open one, with a total of each field all of them have and the source all of them share |
| UsageTracker.ReportsAddUp | packages/ai-runtime/src/provider-usage-tracker.ts:15-28 | Of a call's reports the last value of every field counts, the source's too; a reasoning count is shown exactly when the last report that gave one has stayed within the output count ever since |
| UsageTracker.SanitizeUsage | packages/ai-runtime/src/run-executor-chunks.ts:130-149 | Counts survive only as non-negative safe integers and the source is the executor's |
| ReasoningSummary.ReasoningSummaryTracker.Observe | packages/ai-runtime/src/reasoning-summary-tracker.ts:19-33 | The bounded buffer holds all texts exactly while they are at most 64 and at most 20000 characters together, otherwise none |
| ReasoningSummary.ReasoningSummaryTracker.Finish | packages/ai-runtime/src/reasoning-summary-tracker.ts:35-58 | A waiting summary is settled once, kept whole or discarded |
| ReasoningSummary.OverflowIsFinal | packages/ai-runtime/src/reasoning-summary-tracker.ts:21-30 | After an overflow no later text brings the summary back |
| ReasoningSummary.SettledOnce | packages/ai-runtime/src/reasoning-summary-tracker.ts:35-58 | Text leaves only as the whole summary in order, followed by its own count, and only once |
| StreamRuntime.ProviderStreamRuntime.NextChunk | packages/ai-runtime/src/provider-stream-runtime.ts:56-71 | An aborted runtime rejects; otherwise the answer and the signals race as specified |
| StreamRuntime.LatchComposes | packages/ai-runtime/src/provider-stream-runtime.ts:29-36 | The outcome is the first signal's and never changes |
| StreamRuntime.ChunksComeBeforeSignals | packages/ai-runtime/src/provider-stream-runtime.ts:29-71 | Over all pulls of an attempt a chunk is delivered exactly when the iterator yields one and nothing at all has been signalled before: the first signal, cancellation or timeout, ends the attempt's chunks for good |
| RetryPolicy.NormalizedPolicy | packages/ai-runtime/src/provider-retry-policy.ts:24-31 | Positive integers are kept, anything else is zero, and normalizing again changes nothing |
| RunRetries.PersistentFailure | packages/ai-runtime/src/provider-retry-policy.ts:4-41 | A provider alone whose attempts all fail with the same error is tried maxRetries + 1 times if the error may be retried and once if not; the run then fails with exactly that error and the number of retries |
| RunRetries.BrokenAndAbortedStreams | packages/ai-runtime/src/run-executor-failures.ts:34-43 | So a broken stream is tried maxRetries + 1 times and a stream the provider aborted once |
| RunRetries.NamedCodesAreTriedAgain | packages/ai-runtime/src/provider-retry-policy.ts:4-11 | Of the codes an adapter can name exactly six make a lone provider be tried maxRetries + 1 times |
| RetryPolicy.ClientTypes | packages/ai-runtime/src/provider-retry-policy.ts:15-41 | Exactly six error types are the client's own doing and not held against the provider |
| RunSpec.ToolFailureIsSanitized | packages/ai-runtime/src/run-executor-failures.ts:56-72 | Only known tool error codes and short approval ids are shown |
| RunSpec.StopBody | packages/ai-runtime/src/run-executor.ts:278-321 | A tool call that does not return ends the run with a terminal event that carries the usage evidence |
| RunEvents.PublicIsIdempotent | packages/ai-runtime/src/events.ts:45-108 | Making an event public twice changes nothing more, and making one without reasoning public changes nothing |
| RunEvents.OnlyReasoningChanges | packages/ai-runtime/src/events.ts:45-57 | An event that carries no reasoning is public exactly as it is; of the three kinds that do, only the data changes, and an ungoverned summary delta becomes a notice |
| RunEvents.NoticeLookup | packages/ai-runtime/src/events.ts:50-56 | A public notice shows that reasoning is omitted and its bounded metadata, and nothing else |
| RunEvents.NamesAreRead | packages/ai-runtime/src/events.ts:1-21 | Every kind of event is told by its own type name |
| RunEvents.PublicHidesReasoning | packages/ai-runtime/src/events.ts:45-108 | Reasoning events that agree on classification, status, counts and durations look the same in public, unless they are summary deltas with both marks |
| RunEvents.GovernedTextIsShown | packages/ai-runtime/src/events.ts:59-79 | A summary delta with both marks shows its text, up to 4096 characters, and nothing that depends on anything else |
| RunEvents.CompletionLookup | packages/ai-runtime/src/events.ts:81-108 | What each field of a public summary completion is |
| PublicReasoning.ReasoningIsAlreadyPublic | packages/ai-runtime/src/events.ts:45-108 | The filter is the identity on the executor's notices and settled summaries, and on its deltas once the policy mark is set; without it they become bare notices |
| PublicReasoning.RunReasoningIsAlreadyPublic | packages/ai-runtime/src/reasoning-summary-tracker.ts:35-90 | The same for every reasoning event of every run, whose texts and counts keep their bounds |
| RunLog.TraceIsPresentable | packages/ai-runtime/src/run-executor-chunks.ts:45-90 | Every summary text of an accepted history has at most 4096 characters, every kept count and all metadata are within bounds |
| Sse.ReaderUndoesPrinter | packages/ai-runtime/src/sse.ts:12-15 | Reading any printed sequence of events, heartbeats and retry hints conveys exactly the events, in order: the number as the last event id and, unless the event carries reasoning, its own type and its own JSON text; otherwise those of its public form |
| Sse.ReadBlocks | packages/ai-runtime/src/sse.ts:48-66 | The standard's reader, at rest, takes each printed block for what it is |
| Sse.RetryIsHeard | packages/ai-runtime/src/sse.ts:48-53 | The retry hint becomes the reader's reconnection time |
| Json.WriteIsOneLine | packages/ai-runtime/src/sse.ts:14 | JSON text has no raw line break, whatever the event carries |
| JsonReader.ParseUndoesWrite | packages/ai-runtime/src/sse.ts:14 | The JSON text of any value is read back as that value: its words, numbers, escapes, items and fields |
| JsonReader.TextDeterminesValue | packages/ai-runtime/src/sse.ts:14 | Two values with the same JSON text are the same value |
| Sse.DataIsRead | packages/ai-runtime/src/sse.ts:12-15 | Of an event that carries no reasoning, type and data of its message are read back as its own kind, id, run, number, data, time, leg, channel and schema version 1 |
| Sse.DataDeterminesEvent | packages/ai-runtime/src/sse.ts:12-15 | The data a message carries determines the public event's id, run, number, type, data and time |
| Text.DecimalRoundTrip | packages/ai-runtime/src/sse.ts:14 | A number printed in decimal is read back |
| SseDelivery.EventsArriveInOrder | packages/ai-runtime/src/sse.ts:55-82 | In every interleaving the enqueued events are a prefix of the source, in order, none lost or repeated; the consumer has a prefix of what was enqueued |
| SseDelivery.ClosedStreamsAreComplete | packages/ai-runtime/src/sse.ts:83-89 | A stream closed without a cancel has enqueued its whole source, and delivered it once drained |
| SseDelivery.NextIsCalledOneAtATime | packages/ai-runtime/src/sse.ts:54-81 | There is never more than one outstanding next() |
| SseDelivery.QueueStaysBounded | packages/ai-runtime/src/sse.ts:116-129 | The queue never exceeds maxBufferedBytes - 1 plus its last frame, and no event frame exceeds its limit |
| SseDelivery.CloseIsObservedOnce | packages/ai-runtime/src/sse.ts:37-41 | onClose is observed at most once, and exactly once when start has settled |
| SseDelivery.DropIsReportedOnce | packages/ai-runtime/src/sse.ts:90-96 | A drop is reported at most once, and without a cancel exactly when the stream failed for it |
| SseDelivery.CancelIsFinal | packages/ai-runtime/src/sse.ts:103-108 | After a cancel nothing more is enqueued or delivered |
| SseDelivery.RetryComesFirst | packages/ai-runtime/src/sse.ts:48-53 | The retry hint is the first block, only once, and only when asked for |
| SseDelivery.ConsumerReadsTheSource | packages/ai-runtime/src/sse.ts:17-115 | The bytes a consumer has read convey the first events of the source, in order, each with its own type, number and JSON text unless it carries reasoning |
| SseDelivery.WithoutPullAWaitIsFinal | packages/ai-runtime/src/sse.ts:131-149 | Without pull and cancel a wait for capacity enqueues nothing more and can only time out into a drop |
| SseDelivery.CancelledWaitOnlyTimesOut | packages/ai-runtime/src/sse.ts:131-149 | A wait begun after a cancel can only time out, and is then reported as a drop |
| SseDelivery.DropsAfterCancelExactly | packages/ai-runtime/src/sse.ts:103-108 | Whatever the loop is doing at a cancel, it reports a slow consumer afterwards exactly when a wait had already timed out and the loop goes on, or when the source was awaited, one more frame is offered, and that wait times out |
| SseDelivery.CancelledRunDropsExactly | packages/ai-runtime/src/sse.ts:90-108 | A run is cancelled and has reported a drop exactly when that holds of the steps after its cancel |
| SseDelivery.DropAfterCancel | packages/ai-runtime/src/sse.ts:56-81 | Of a cancelled stream that awaits its source: the answer or heartbeat that ends the await either makes it wait once more or settles start without a drop |
| SseDelivery.CancelledStreamReportsDrop | packages/ai-runtime/src/sse.ts:60-73 | A concrete cancelled stream that reports a slow consumer and a failed heartbeat |
| SseDelivery.BufferedBytesReport | packages/ai-runtime/src/sse.ts:124-128 | onBufferedBytes reports the queue's bytes, or the whole limit after a cancel |
| SseDelivery.TerminalLatencyIsReported | packages/ai-runtime/src/sse.ts:78-88 | The close latency is reported once, exactly when a stream that carried a terminal event is closed |
| SseDelivery.NextKeeps | packages/ai-runtime/src/sse.ts:45-108 | Every step keeps the invariant of the delivery loop |
| SseOutcomes.ErrorsHaveCauses | packages/ai-runtime/src/sse.ts:68-98 | A stream fails with the source's error only if the source threw after all its events, as too large only if the last event's frame is, and as slow only with a reported drop |
| SseOutcomes.FaultlessStreamsClose | packages/ai-runtime/src/sse.ts:82-89 | A loop that ended without a cancel or a drop over a source that does not throw and whose frames fit has closed its stream, with the whole source enqueued |
| SseOutcomes.DropsComeFromTimers | packages/ai-runtime/src/sse.ts:131-149 | Nothing is dropped unless the timer of a wait fires |
| SseOutcomes.ConsumerGetsWhatItAsksFor | packages/ai-runtime/src/sse.ts:116-124 | An open stream has handed out, from the front, as many frames as were asked for and there are |
| SseOutcomes.FramesAreEnqueuedWithRoom | packages/ai-runtime/src/sse.ts:116-124 | An event that fits, or a heartbeat, is enqueued at once if fewer bytes than the limit are queued; otherwise the loop waits with it |
| SseOutcomes.PullResumes | packages/ai-runtime/src/sse.ts:100-102 | A pull that finds room resumes the wait, and its frame is then enqueued |
| SseOutcomes.TimeoutDrops | packages/ai-runtime/src/sse.ts:131-149 | A wait whose timer fires fails the stream, reports one drop, and the heartbeat's failure when it was one |
| SseOutcomes.LatencyIsMeasured | packages/ai-runtime/src/sse.ts:78-88 | The close latency runs from the terminal event's enqueueing to the end of the source |
| SseOutcomes.CancelClosesOnce | packages/ai-runtime/src/sse.ts:103-108 | A cancel closes the stream, and onClose is observed when the iterator has returned |
| SseOutcomes.EveryStreamCanFinish | packages/ai-runtime/src/sse.ts:45-101 | After any steps without a cancel or a timeout, some further steps close the stream of a well-behaved source with every event delivered, and without a pull unless the loop already waits |
| SseOutcomes.OneEventIsDelivered | packages/ai-runtime/src/sse.ts:45-101 | A concrete run: one event, read, and the stream closed with it delivered |
| SseOutcomes.DefaultLimits | packages/ai-runtime/src/sse.ts:30-31 | The limits without options: 256,000 queued bytes and a million bytes for an event |
| SseStream.Deliver | packages/ai-runtime/src/sse.ts:17-115 | The text a consumer has received from the object, after any steps, is the printing of what the specification delivered, and conveys the first events of the source |
| SseStream.EventStream.Take | packages/ai-runtime/src/sse.ts:45-108 | The object, which holds encoded chunks, a running total and one flag for the outstanding next(), refines the specification's events, sums and counters step by step |
| SseStream.Controller.DesiredSizeNow | packages/ai-runtime/src/sse.ts:110-128 | The desired size computed from the running total is the limit less the bytes of all queued frames |
| SseStream.Controller.Enqueue | packages/ai-runtime/src/sse.ts:116-124 | An encoded chunk goes to a waiting read or to the queue, and total, queue and received text stay those of the frames |
| SseStream.Controller.Read | packages/ai-runtime/src/sse.ts:110-114 | A read takes the first chunk and its size out of the queue and its total, or waits |
| RunOverSse.ServedRunIsComplete | packages/ai-runtime/src/sse.ts:17-160 | A run that did not escape, served by a stream that closed and was read to its end, is conveyed whole: events 1 to n, each with its own type and JSON text unless it carries reasoning, of which the last and no other is terminal |
| RunOverSse.EveryRunCanBeServed | packages/ai-runtime/src/sse.ts:17-115 | Whatever has happened short of a cancel and of a wait's timeout, some further steps convey the whole run, if its frames are within the limit |
| Bits.AndHighMask | packages/cli/src/network-host-policy.ts:98-101 | A mask of the highest bits keeps the quotient |
| Bits.AndLowMask | packages/cli/src/network-host-policy.ts:148-150 | A mask of the lowest bits keeps the remainder |
| Bits.OrDisjoint | packages/cli/src/network-host-policy.ts:103-108 | Or of words without a common bit is their sum |
| Ipv4.CidrIsPrefix | packages/cli/src/network-host-policy.ts:98-101 | Membership by mask is equality of the quotients by 2^(32 - prefix) |
| Ipv4.Ipv4IntegerIsQuad | packages/cli/src/network-host-policy.ts:103-108 | The shifted and or-ed octets are the address as a number |
| Ipv4.Ip4IsDotted | packages/cli/src/network-host-policy.ts:83-89 | The texts of family 4 are exactly the canonical dotted quads |
| Ipv4.BlockedIsReserved | packages/cli/src/network-host-policy.ts:21-37 | The fifteen masked comparisons block exactly the reserved octet ranges |
| Ipv6.Ipv6Pieces | packages/cli/src/network-host-policy.ts:171-189 | The loop over the pieces returns the groups they spell, or nothing |
| Ipv6.ExpandIsSpelling | packages/cli/src/network-host-policy.ts:152-169 | The parser returns groups exactly for the texts that spell them: eight groups below 65536, in hexadecimal, with one run of zeros left out, or with a dotted quad |
| Ipv6.ExpandUndoesSpelling | packages/cli/src/network-host-policy.ts:152-169 | Every spelling of eight groups is read back as those groups |
| Ipv6.EveryAddressIsSpelled | packages/cli/src/network-host-policy.ts:152-189 | Any address can be written out, with any run of zero groups left out, with or without a dotted tail, each group with any leading zeros that fit in four digits |
| Ipv6.ParserVersusStandard | packages/cli/src/network-host-policy.ts:152-169 | The parser accepts the addresses of section 2.2 of RFC 4291 and, beyond them, exactly the form with a dotted quad before the double colon |
| Ipv6.DottedLeftIsAccepted | packages/cli/src/network-host-policy.ts:171-189 | Any dotted quad before a double colon is accepted though it is no address |
| Ipv6.HexRoundTrip | packages/cli/src/network-host-policy.ts:185-186 | A group printed in hexadecimal is read back, in at most four digits |
| NetworkPolicy.ReservedGroupsArePrefixes | packages/cli/src/network-host-policy.ts:110-127 | The masked group tests are membership of the 128-bit address in one of fourteen prefix blocks |
| NetworkPolicy.PrefixIsInterval | packages/cli/src/network-host-policy.ts:110-127 | A prefix block is an interval |
| NetworkPolicy.BlockedIpv6IsUnion | packages/cli/src/network-host-policy.ts:110-146 | The whole function is the union of those blocks and of the four embeddings of reserved IPv4 addresses |
| NetworkPolicy.Ipv4FromGroups | packages/cli/src/network-host-policy.ts:148-150 | The two groups are printed as the dotted quad that spells them |
| NetworkPolicy.EmbeddedNumber | packages/cli/src/network-host-policy.ts:129-143 | The embedded quad is the number high * 65536 + low, blocked when that number is reserved |
| NetworkHost.Ipv4HostDecision | packages/cli/src/network-host-policy.ts:83-96 | An IPv4 host is blocked exactly when it is reserved |
| NetworkHost.Ipv6HostDecision | packages/cli/src/network-host-policy.ts:83-89 | An IPv6 host, however spelled, is blocked exactly when its number is in the union |
| NetworkHost.EmbeddedHostsAgree | packages/cli/src/network-host-policy.ts:129-144 | All four embeddings, in any valid spelling, are blocked exactly when the IPv4 address is |
| NetworkHost.EmbeddedTextsAgree | packages/cli/src/network-host-policy.ts:39-45 | The same from the texts themselves: a spelling of an embedding, plain or in brackets, and the dotted quad get the decision of the four numbers |
| NetworkHost.LetThroughExactly | packages/cli/src/network-host-policy.ts:83-89 | A host is let through exactly if it is a name without a colon, an IPv4 address outside the reserved ranges or a spelling of an IPv6 address outside them; text with a colon that the grammar does not know is blocked |
| NetworkHost.SpellingsAreHosts | packages/cli/src/network-host-policy.ts:39-45 | A spelled address normalizes to itself, plain or in brackets |
| BrokerWorker.EveryClaimIsSettledOnce | packages/cli/src/knowledge-worker.ts:28-85 | Every claimed source is completed exactly once, by the next call and with its own token; each report's claims are its extractions and failures, and together all claims granted |
| BrokerWorker.FailureIsNeverReported | packages/cli/src/knowledge-worker.ts:54-67 | No completion with success false ever reaches the broker |
| BrokerWorker.ReportsTellTheCalls | packages/cli/src/knowledge-worker.ts:28-85 | What the broker is asked is, iteration by iteration, a claim and its completion for each source and a last claim in vain; each report is exactly that iteration's accepted extractions and refused ones, with the reason and the source's id |
| BrokerWorker.BatchTells | packages/cli/src/knowledge-worker.ts:36-68 | An iteration goes on to the first source that gives no work, to its maximum or to its signal, and throws exactly when that claim does |
| BrokerWorker.WorkerStopsWhenTold | packages/cli/src/knowledge-worker.ts:33-82 | The worker stops exactly when its signal or its limit says so, or when a claim throws |
| BrokerWorker.WorkIsComplete | packages/cli/src/broker-worker-clients.ts:139-149 | A claim is work exactly when it has a token and a source with an id |
| BrokerWorker.RefusedExtractionStaysLocal | packages/cli/src/knowledge-worker.ts:50-67 | A run in which the broker refuses a completion: the failure is in the worker's report, and the broker has been asked nothing more |
| BrokerWorker.RunKnowledgeExtractionWorker | packages/cli/src/knowledge-worker.ts:28-85 | The worker's loops do what the specification says and leave no token behind |
| BrokerWorker.ClaimAndSettle | packages/cli/src/knowledge-worker.ts:36-68 | One iteration does what the specification says and leaves no token behind |
| BrokerWorker.KnowledgeClient.ClaimExtraction | packages/cli/src/broker-worker-clients.ts:139-149 | A valid claim's token is remembered, and nothing else |
| BrokerWorker.KnowledgeClient.CompleteExtraction | packages/cli/src/broker-worker-clients.ts:150-160 | The broker is asked exactly when a token is remembered, and the token is forgotten either way |

## Left out

- Provider adapters, parameter translation and resolution: an environment answer, resolved (effective parameters, whether a summary is asked for, whether a summary may be retained) or refused. API keys and the fetch implementation are not modelled.
- Hashing, ids and timestamps: the tool call hash is an arbitrary function, ids of events are their printed form, timestamps are parameters.
- Timers and promises: the idle timer, the heartbeat and the capacity timer are signals or steps that may come at any time, also when the option that arms them is absent, except that no heartbeat comes without heartbeatMs. The theorems hold for all of them.
- The adapter's `return` at the end of an attempt, whose errors are swallowed, and the runtime's `clear`.
- Consumers that abandon the generator of events or throw into it; the delivery loop's consumer may cancel at any time.
- Argument keys and counts in tool.requested, and the connector fields of run.waiting_tool_dispatch, which pass through unchanged: the dispatch is one opaque value.
- JavaScript strings are sequences of UTF-16 units, Dafny's of Unicode scalar values: lengths and slices differ for characters beyond the basic plane, and a slice through the middle of a surrogate pair does not exist here.
- Numbers beyond 2^53 and fractional token counts beyond being dropped; `undefined` fields of an event's data, which JSON.stringify omits.
- Insignificant whitespace in JSON text and the grammar of numbers that are not integers: the reader is for what the printer writes, where such a number is the text JavaScript prints for it.
- `publicRunEvent`'s treatment of arrays and of other objects is that of data without the fields it looks for.
- The stream's own promises: `pull` may be called whenever the stream would, start or not. Progress is claimed only as what some further steps can reach, and for a loop that does not wait without any pull.
- Exceptions thrown by observer callbacks.
- Lower-casing of letters outside ASCII, `isPrivateNetworkHost`'s list of names, `normalizeResolvedNetworkAddress`: membership tests and thin wrappers. An IPv6 zone is cut off before the family is decided, as in the code, and spellings are stated without one.
- The tool and browser workers of the broker, lease renewal and the HTTP client: the same token map with thin wrappers.
- The CLI's other commands, the authorization package, the scripts and the application.
