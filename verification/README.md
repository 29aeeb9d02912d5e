# Verified model of the KubeAssist analysis core

This project models, in Dafny 4.11, the parts of KubeAssist whose correctness does not
show in any single function, and proves what those parts are for.

* **Asynchronous AI enrichment** (`EnrichmentQueue`, `EnrichmentProtocol`,
  `EnrichmentInvariants`, `EnrichmentTheorems`, `EnrichmentSettling`, `EnrichmentCache`,
  `EnrichmentOverlap`, `EnrichmentScenarios`, `DashboardResults`). Health checks publish a
  numbered baseline per cluster and hand an enrichment request to a coalescing queue; one
  worker calls the provider and commits the answer if it is still current. The queue is a
  class; the protocol is a state machine whose actions are the program's critical sections.
* **Token accounting, circuit breaker, chat** (`TokenBudget`, `TokenAccounting`,
  `CircuitBreaker`, `AnalysisManager`, `BreakerCallers`, `ChatHistory`, `AnthropicMessages`, `ChatTurn`,
  `ChatAccounting`). The chat turn and the analysis are tied to the accounting: their budget
  calls are runs of one of its callers.
* **The causal correlator** (`CausalTypes`, `Timeline`, `CrossCheckerRules`, `ResourceGraph`,
  `TemporalCorrelator`, `GroupDeduplication`, `StrategyGuarantees`, `Correlator`,
  `CorrelatorScenarios`): three strategies, a greedy
  deduplication, a count.
* **Batch selection and trimming for AI** (`BatchEnhancement`, `ContextBudget`).
* **Self-contained algorithms**: least-squares trend (`Regression`), LRU cache with time to live
  (`RecencyList`, `ResponseCache`), JSON escape repair (`JsonEscapes`),
  URL path round trip (`ResourcePaths`).

Each module is in the file of its name; `CheckerTypes.dfy` also holds `FiniteSets` and
`TextSearch`.

Conventions. Strings are sequences of bytes, one `char` each; integers are unbounded; a nil map
is an empty map; hashes, clock readings, provider replies, the square root and message
normalisation are inputs. A `range` over a Go map is a loop that picks any remaining key, so
whatever is proved holds for every iteration order. A mutex-protected method is atomic; code
that is not protected by one lock is split into one action per critical section.

Hypotheses. The protocol assumes that the checks of one cluster do not overlap. The program
relies on `checkInFlight` for that (internal/dashboard/ai_analysis.go:69), but the first check
started at internal/dashboard/server.go:816 does not take the flag;
`EnrichmentOverlap` drops the hypothesis for one cluster: `CommitPatchesOwnBaselineIff` says
exactly when a commit then still meets its own baseline. Token accounting covers every
interleaving and every number of window expiries.

The comment on `maybeCompactHistory` (internal/ai/agent.go:703-705) says that it keeps the
first message; the code keeps only the last three, and so does the model.

Where the program falls short of what its comments suggest, the model keeps the code's
behaviour; a lemma says when the promise holds, and another exhibits the failure:

| promise | holds if and only if, or exactly when | failure |
|---|---|---|
| a snapshot reapplied shows what the AI answered | `ReapplyMatchesIffUniqueKeys` | `DuplicateKeysDiverge` |
| usage stays within the limit | `OverLimitIff`, `ExcessHasCause` | `ExpiredWindowAdmitsMoreThanItsLimit` |
| a window never shows less than what was spent | `StepLosesSpendIff` | `ExpiryLosesSpend` |
| windows show the real spend | `ExactSpendIffNothingHeld`, `IdleBooksAreExact` | `ExpiryLosesSpend` |
| a probe closes or reopens the breaker | `ProbeHasNoOutcomeIff`, `ProbeDecidesState`, `HalfOpenIsLeftIffSomeOutcomeAhead` | `UnseenCallsBlockBreaker` |
| a compacted history stays paired and translatable | `CompactionKeepsPairingIffCleanCut`, `CompactedHistoryBuildsIffCleanCut` | `UncleanCutHappens`, `LongResultBreaksTurn` |
| a group's severity is that of an event it holds | `SeverityExactIff` | `SeverityOverstates` |
| the server understands the client's path | `RecoveredIffSegments`, `ValidatedRequestRecoveredIff` | `EmptyNameBecomesList`, `DotNameBecomesList` |
| a settings update retires old answers | never: `PostDoesNotInvalidate` | `OldProviderIsShownAfterPost` |
| Pending ends with the work | `QuiescentShowsPendingIffStranded` | `PostLeavesPending` |
| a commit patches the baseline it was computed for, even if checks overlap | `CommitPatchesOwnBaselineIff` | `OverlappingChecksMisattribute` |

## Model

| member | source | states |
|---|---|---|
| EnrichmentQueue.Queue.constructor | internal/dashboard/enrichment_queue.go:88-98 | A new queue is valid and empty; a capacity that is not positive becomes 16 |
| EnrichmentQueue.Queue.Enqueue | internal/dashboard/enrichment_queue.go:103-134 | The whole effect of a submission, for any choice of promoted clusters, and that the queue invariant survives it |
| EnrichmentQueue.Queue.Receive | internal/dashboard/enrichment_queue.go:153-165 | The worker gets the oldest request, which stays in flight |
| EnrichmentQueue.Queue.MarkDone | internal/dashboard/enrichment_queue.go:138-148 | The finished cluster leaves flight and waiting requests move up while there is room |
| EnrichmentQueue.Queue.DispatchPendingLocked | internal/dashboard/enrichment_queue.go:189-212 | For any map order the nested loop ends, having moved pending requests of clusters not in flight until the channel is full or none waits |
| EnrichmentQueue.EnqueueKeepsValid | internal/dashboard/enrichment_queue.go:103-134 | One request per cluster in channel plus worker, in flight exactly those clusters, and nobody waits while there is room |
| EnrichmentQueue.RefusedOnlyWhenFull | internal/dashboard/enrichment_queue.go:100-133 | A submission is refused only if the channel holds as many distinct other clusters as its capacity |
| EnrichmentQueue.MarkDoneKeepsValid | internal/dashboard/enrichment_queue.go:138-148 | Finishing a request keeps the queue invariant |
| EnrichmentQueue.IdleQueueHasNoPending | internal/dashboard/enrichment_queue.go:189-212 | With nothing in flight nothing is pending |
| EnrichmentQueue.WaitingImpliesOthersInFlight | internal/dashboard/enrichment_queue.go:189-212 | A pending request of a cluster that is not in flight implies that a full channel's worth of other clusters is |
| EnrichmentQueue.EnqueueConserves | internal/dashboard/enrichment_queue.go:103-134 | An accepted request is in the queue and displaces at most the older pending one of its cluster; pending stays newer than what is in the channel |
| EnrichmentQueue.MarkDoneConserves | internal/dashboard/enrichment_queue.go:138-148 | Promotion neither loses nor invents a request |
| EnrichmentInvariants.StepKeepsInv | internal/dashboard/ai_analysis.go:325-534 | Every action, of checks, worker and settings, in every interleaving, keeps the protocol invariant |
| EnrichmentInvariants.CommitKeeps | internal/dashboard/ai_analysis.go:921-954 | The post-flight commit of one cluster keeps the invariant |
| EnrichmentTheorems.RunKeepsInv | internal/dashboard/ai_analysis.go:875-958 | The invariant holds in every state of every run |
| EnrichmentTheorems.QuiescentRunsAreSettled | internal/dashboard/enrichment_queue.go:136-148 | With no check running and nothing in flight the pending map is empty and each cluster's newest accepted request was processed last |
| EnrichmentSettling.QuiescentShowsPendingIffStranded | internal/dashboard/handlers_ai.go:144-162 | Once no check runs and nothing is in flight, a cluster shows Pending if and only if a settings update found it published with no check past counting and no current request queued or with the worker, and no check of it was published since |
| EnrichmentSettling.RunExplains | internal/dashboard/ai_analysis.go:402-533 | In every state of every run a Pending mark is stranded in that sense or work that will clear or renew it is on the way |
| EnrichmentSettling.QuiescentWithoutPostsShowsNoPending | internal/dashboard/ai_analysis.go:502-533 | In runs without settings updates no cluster then still shows Pending |
| EnrichmentSettling.CuredOrBusyShowsNoPending | internal/dashboard/handlers_ai.go:144-162 | Nor in runs in which every update found work on the way or was followed by a published check |
| EnrichmentSettling.PostLeavesPending | internal/dashboard/handlers_ai.go:144-162 | A settings update on an idle server marks exactly the published clusters Pending with no request on the way |
| EnrichmentCache.PublicationHasCheck | internal/dashboard/ai_analysis.go:325-480 | Every publication is that of one check: its checkers returned, it counted, looked at the cache and published, in this order and with nothing else of its own in between |
| EnrichmentCache.CacheIsAnswerInForce | internal/dashboard/ai_analysis.go:929-934 | In every run the cache holds hash, status and suggestions of the answer last committed since the last settings update, and nothing if there is none |
| EnrichmentCache.HitShowsAnswerInForce | internal/dashboard/ai_analysis.go:400-417 | A check that finds AI on and available and an answer in force for its issue hash is published as done, without a request, with that answer's suggestions on its own results |
| EnrichmentCache.MissShowsOwnResults | internal/dashboard/ai_analysis.go:400-426 | Any other check is published with its checkers' own results; it is Pending and offers a request for exactly these results if and only if AI is on and available |
| EnrichmentCache.OnlyAnsweredIssuesAreEnhanced | internal/dashboard/ai_analysis.go:388-402 | What is published differs from what the checkers returned only if an answer for the same hash was committed and no settings update came in between |
| EnrichmentCache.AsksIffNotAnswered | internal/dashboard/ai_analysis.go:388-426 | With AI available a check asks the provider, and shows Pending, if and only if AI is on and no such answer is in force |
| EnrichmentCache.RepeatedCheckShowsEnrichedResults | internal/dashboard/ai_analysis.go:400-417 | If the checkers return again what an answer in force was given for, with different issue keys, the check shows the dashboard of the enriched results |
| EnrichmentCache.PostShowsNewSettings | internal/dashboard/handlers_ai.go:145-162 | A settings update shows every published cluster as Pending under the new settings and changes no result on display |
| EnrichmentCache.ErrorsAreShown | internal/dashboard/ai_analysis.go:893-912 | A provider error or a refused request clears Pending and shows its text exactly if it belongs to the newest check; results stay |
| EnrichmentCache.OnlyOwnStepsShow | internal/dashboard/ai_analysis.go:325-534 | What a cluster shows changes only by its own publications, commits, errors and phases, and by settings updates |
| EnrichmentTheorems.CommitPatchesOwnBaseline | internal/dashboard/ai_analysis.go:921-954 | A commit patches the untouched baseline of its own generation and then shows what a dashboard built from the enriched results would |
| EnrichmentTheorems.ShownIsOwnBaselineOrItsEnrichment | internal/dashboard/ai_analysis.go:936-954 | Every cluster always shows its latest baseline or that baseline enhanced by the answer to its own request |
| EnrichmentTheorems.CommittedNeverDecreases | internal/dashboard/ai_analysis.go:921-928 | The committed generation of a cluster never goes back |
| EnrichmentTheorems.PostDoesNotInvalidate | internal/dashboard/handlers_ai.go:145-162 | A settings update leaves every staleness decision as it was, for every cluster and request |
| EnrichmentTheorems.RequestsAreProcessedInOrder | internal/dashboard/enrichment_queue.go:103-134 | Each cluster's requests reach the worker in strictly increasing generation, and the pending one is the newest accepted |
| EnrichmentTheorems.WorkerStepsAreBounded | internal/dashboard/ai_analysis.go:875-958 | Every worker step lowers a bound on the work left |
| EnrichmentTheorems.WorkerRunsAreBounded | internal/dashboard/enrichment_queue.go:153-166 | Left alone the worker stops within that bound |
| EnrichmentTheorems.WorkerNeverStuck | internal/dashboard/enrichment_queue.go:153-166 | While anything is in flight the worker can take a step |
| EnrichmentScenarios.OverlappingChecksMisattribute | internal/dashboard/ai_analysis.go:459-480 | If two checks of a cluster overlap, the later request passes every staleness test against the earlier check's baseline, and the commit shows what the AI said about one issue on another |
| EnrichmentOverlap.CommitPatchesOwnBaselineIff | internal/dashboard/ai_analysis.go:325-534 | However the checks of a cluster overlap, an answer that passes the staleness tests patches the untouched baseline it was computed for if and only if no check that counted earlier was published after its own |
| EnrichmentOverlap.OrderedChecksCommitOwnBaseline | internal/dashboard/ai_analysis.go:921-954 | If checks publish in the order in which they counted, every such commit shows what a dashboard built from its enriched results would |
| EnrichmentScenarios.OldAnswerLandsAfterPost | internal/dashboard/handlers_ai.go:145-162 | In any state with a current answer not yet committed, a settings update marks the cluster Pending and the old answer is then committed and clears the mark |
| EnrichmentScenarios.OldProviderIsShownAfterPost | internal/dashboard/ai_analysis.go:875-958 | There is a whole run in which the answer arrives, the settings change, and the commit then shows the old provider as settled under the new configuration |
| DashboardResults.BuildDashboardResults | internal/dashboard/ai_analysis.go:545-606 | Builds exactly the displayed form of every result's issues |
| DashboardResults.PatchIssuesInPlace | internal/dashboard/ai_analysis.go:978-1003 | Overwrites the AI fields of each issue by position, in the array, and nothing else |
| DashboardResults.PatchDashboardResults | internal/dashboard/ai_analysis.go:978-1003 | The same for all results by checker name |
| DashboardResults.SnapshotAIEnhancements | internal/dashboard/ai_analysis.go:747-766 | Records suggestion and root cause of each enhanced issue under its key, the last of equal keys winning |
| DashboardResults.ReapplyAIEnhancements | internal/dashboard/ai_analysis.go:771-795 | Reapplies a snapshot to fresh results by issue key |
| DashboardResults.PatchRouteMatches | internal/dashboard/ai_analysis.go:978-1003 | Patching a published baseline shows the same as building from the enhanced results, in every displayed field except metadata |
| DashboardResults.DisplayedIssue | internal/dashboard/ai_analysis.go:556-585 | An untagged issue is shown with its own suggestion; enhanced, it is shown by both routes with exactly the AI's suggestion and root cause; kind, severity, resource, namespace and message stay those of the issue |
| DashboardResults.DashboardShowsWhatWasFound | internal/dashboard/ai_analysis.go:545-606 | The same for every checker and issue of whole dashboards, with the AI mark exactly on the enhanced issues |
| DashboardResults.DisplayedChecker | internal/dashboard/ai_analysis.go:545-606 | A failed checker is shown with its error and no issues, any other with its healthy count and all of them |
| DashboardResults.KeysIdentifyIssues | internal/dashboard/ai_analysis.go:758-759 | Issue keys are equal exactly if kind, resource and namespace are, as long as the separator does not occur in them |
| DashboardResults.ReapplyRouteMatches | internal/dashboard/ai_analysis.go:747-795 | If the issues of every checker that did not fail have different keys, reapplying a snapshot to the same fresh results gives back the enhanced results exactly |
| DashboardResults.DuplicateKeysDiverge | internal/dashboard/ai_analysis.go:747-795 | For any two issues of a checker with equal keys there is an AI answer that the snapshot route shows on the wrong one |
| DashboardResults.ReapplyMatchesIffUniqueKeys | internal/dashboard/ai_analysis.go:747-795 | Snapshot and reapply show what the AI answered, for every answer, if and only if the issues of each checker that did not fail have different keys |
| TokenBudget.Budget.TryConsume | internal/ai/budget.go:84-109 | All or nothing: charges every window, restarting expired ones, if all have room, and otherwise changes nothing |
| TokenBudget.Budget.ReleaseUnused | internal/ai/budget.go:112-124 | Credits every window, never below zero, and ignores amounts that are not positive |
| TokenBudget.Budget.RecordUsage | internal/ai/budget.go:127-140 | Charges every window, restarting expired ones |
| TokenBudget.Budget.CheckAllowance | internal/ai/budget.go:63-80 | Answers whether a reservation would be granted |
| TokenBudget.UsageStaysBounded | internal/ai/budget.go:84-140 | In every history usage is never negative and exceeds the limit only by the reservation that restarted the window plus the overage recorded since |
| TokenBudget.OverLimitIff | internal/ai/budget.go:94-106 | A granted reservation takes a window over its limit if and only if the window had expired and the reservation alone exceeds the limit |
| TokenBudget.LimitHoldsForFittingReservations | internal/ai/budget.go:84-124 | With reservations no larger than the limit and no overage the limit holds in every history, restarts and releases included |
| TokenBudget.ExcessHasCause | internal/ai/budget.go:84-124 | In every history without overage a usage over the limit goes back to a reservation larger than the limit that restarted the window |
| TokenBudget.GrantedWhenRoom | internal/ai/budget.go:84-101 | A reservation is granted whenever every window has run out or has room for all that was charged since its restart and the reservation; in histories without releases, only then |
| TokenBudget.ExpiredWindowAdmitsMoreThanItsLimit | internal/ai/budget.go:94-106 | Such a history: an expired window with limit 100 admits 500 |
| TokenAccounting.RecordedNeverBelowSpent | internal/ai/agent.go:205-278 | In every run, expiries included, a window shows at least its spend since the last restart, less the credits on reservations made before it |
| TokenAccounting.WindowsShowSpentAndOutstanding | internal/ai/agent.go:231-252 | In every run each window shows at most its opening usage plus spend, abandoned and outstanding reservations since its last restart, and less only by the credits on older reservations |
| TokenAccounting.StepLosesSpendIff | internal/ai/budget.go:103-124 | From exact books any step leaves a window below what it owes if and only if it credits a reservation made before the window's last restart while the window shows anything |
| TokenAccounting.BooksAreExactWithCurrentCredits | internal/ai/agent.go:205-278 | While every credit is for a reservation of the current window, that window's books stay exact through any number of expiries |
| TokenAccounting.ExactSpendIffNothingHeld | internal/ai/manager.go:105-135 | Such a window shows exactly the real spend if and only if nobody holds a reservation of it and no analysis abandoned one |
| TokenAccounting.IdleBooksAreExact | internal/ai/agent.go:205-278 | A window not yet restarted shows its start plus all real spend if and only if nobody holds a reservation and none was abandoned |
| TokenAccounting.AggregateIsExactAndBounded | internal/ai/budget.go:190-227 | Load and compare-and-swap lose no update: the aggregate is settled spend plus outstanding and passes its maximum only by overage |
| TokenAccounting.IdleAggregateIsExact | internal/ai/budget.go:190-227 | With no call open the aggregate is exactly the real chat spend |
| TokenAccounting.WindowBooksKept | internal/ai/agent.go:210-252 | Every single step of every caller, restarting the window or not, keeps a window's books |
| TokenAccounting.AggregateBooksKept | internal/ai/budget.go:190-219 | Every single step keeps the aggregate books |
| TokenAccounting.ExpiryLosesSpend | internal/ai/budget.go:103-123 | A run in which a late release removes all that another turn spent in the new window |
| CircuitBreaker.CircuitBreaker.Allow | internal/ai/circuitbreaker.go:101-125 | Admission and state change, and that a transition is reported exactly when the state changes |
| CircuitBreaker.CircuitBreaker.RecordSuccess | internal/ai/circuitbreaker.go:129-140 | Effect of a success on counter and state |
| CircuitBreaker.CircuitBreaker.RecordFailure | internal/ai/circuitbreaker.go:144-156 | Effect of a failure on counter, time and state |
| CircuitBreaker.CircuitBreaker.RecordRateLimit | internal/ai/circuitbreaker.go:161-165 | Only the time of the latest setback moves |
| CircuitBreaker.StateReflectsHistory | internal/ai/circuitbreaker.go:127-165 | The counter is the number of failures since the last success; closed means below the threshold; the stored time is that of the latest failure or rate limit |
| CircuitBreaker.LeavesClosedExactlyAtThreshold | internal/ai/circuitbreaker.go:144-151 | From closed the only way out is the failure that makes the count reach the threshold, and it leads to open |
| CircuitBreaker.OpenAdmitsExactlyAfterTimeout | internal/ai/circuitbreaker.go:108-118 | An open breaker admits a call if and only if the timeout has passed since the latest failure or rate limit |
| CircuitBreaker.OpenIsLeftOnlyByAdmission | internal/ai/circuitbreaker.go:101-165 | Open is left exactly by a call admitted after the timeout, for half-open; late outcomes of either kind leave it open |
| CircuitBreaker.OneProbeBetweenOutcomes | internal/ai/circuitbreaker.go:98-125 | While not closed, between two admitted calls lies a recorded success or failure |
| CircuitBreaker.HalfOpenLastsUntilAnOutcome | internal/ai/circuitbreaker.go:119-121 | Half-open is left exactly by an outcome; without one every call is refused |
| CircuitBreaker.TrippedBreakerThrottles | internal/ai/circuitbreaker.go:101-165 | Once tripped and until a success, k admitted calls take at least k timeouts |
| AnalysisManager.Manager.Analyze | internal/ai/manager.go:80-186 | The budget takes exactly the steps of the accounting model, the breaker sees exactly the events of the outcome, and only an answer is cached |
| AnalysisManager.ProbeHasNoOutcomeIff | internal/ai/manager.go:122-159 | An admitted call records no outcome if and only if the provider first limits the rate and the caller then gives up or is limited again |
| AnalysisManager.ProbeDecidesState | internal/ai/manager.go:113-186 | The probe of an open breaker leaves it half-open, refusing everything, in exactly those cases; otherwise closed after an answer and open after an error |
| BreakerCallers.UnseenCallsReportNoOutcome | internal/dashboard/handlers_chat.go:285-304 | An analysis reports no outcome exactly when limited and then given up or limited again, a chat turn exactly when cancelled or cut off from its client |
| BreakerCallers.HalfOpenIsLeftIffSomeOutcomeAhead | internal/ai/manager.go:263-292 | With analyses and chat turns in any interleaving that runs the calls in flight to their end, half-open is left if and only if one of them has an outcome to report |
| BreakerCallers.UnseenCallsBlockBreaker | internal/ai/circuitbreaker.go:119-121 | If all calls in flight end unseen, every later call is refused in every run |
| ChatTurn.RunTurn | internal/ai/agent.go:186-319 | Events, messages, total and the exact budget calls of a turn as determined by its rounds and its ending; at most maxIterations calls |
| ChatTurn.NetOfTurn | internal/ai/agent.go:205-278 | What a turn's budget calls leave charged is, in each budget, exactly the tokens used |
| ChatAccounting.TurnIsRunOfOneCaller | internal/ai/agent.go:205-278 | The budget calls of a turn are, in order and in their effect on windows and aggregate, a run of one caller of the accounting, idle before and after |
| ChatTurn.SettleReservations | internal/ai/agent.go:231-252 | After settling, each reserved budget is charged with exactly the actual count, negatives as zero |
| ChatTurn.ReserveBoth | internal/ai/agent.go:208-229 | Either both budgets are reserved or neither stays charged |
| ChatTurn.TurnEventsAreWellFormed | internal/ai/agent.go:198-318 | Exactly one Done, last, with the returned total; tool calls and results in adjacent pairs |
| ChatTurn.FinalHistoryIsPaired | internal/ai/agent.go:280-312 | If compactions cut cleanly, a paired history stays paired through the turn |
| ChatTurn.SentHistoriesArePaired | internal/ai/agent.go:254-271 | Every history then sent is paired and translatable, so a call fails only if the provider does |
| ChatTurn.LongResultBreaksTurn | internal/ai/agent.go:254-271 | After such a first round the next Anthropic call of the turn fails before anything is sent |
| ChatTurn.UncompactedTurnsOnlyAppend | internal/ai/agent.go:280-312 | Without compaction the caller's messages are kept and each round appends its message and exactly its results |
| ChatHistory.MaybeCompactHistory | internal/ai/agent.go:706-733 | Replaces all but the last three messages by one summary, when over the threshold and longer than four |
| ChatHistory.EstimateMessageTokens | internal/ai/agent.go:688-697 | A quarter of the bytes of contents, call names and call arguments |
| ChatHistory.CompactKeepsLastThree | internal/ai/agent.go:713-731 | The last three messages stay as they are, behind one user message with the summary of the others |
| ChatHistory.SummaryMentionsAll | internal/ai/agent.go:718-724 | The summary mentions every summarised message with a text: its role and the text's first hundred bytes |
| ChatHistory.CompactionKeepsPairingIffCleanCut | internal/ai/agent.go:713-731 | Compaction keeps a history paired if and only if the oldest kept message is not a tool result |
| ChatHistory.UncleanCutHappens | internal/ai/agent.go:706-733 | A question of admissible length answered by three tool calls, one with a long result, is a paired history that compaction cuts between calls and results |
| AnthropicMessages.BuildAnthropicMessages | internal/ai/agent.go:598-675 | Succeeds exactly when no tool message follows a user message, and then yields the run-by-run grouping |
| AnthropicMessages.GroupedSnoc | internal/ai/agent.go:638-670 | Merging message by message equals grouping maximal runs of tool messages |
| AnthropicMessages.WireRoundTrip | internal/ai/agent.go:598-675 | Reading the wire messages back gives every message again, in order |
| AnthropicMessages.PairedHistoriesBuild | internal/ai/agent.go:595-675 | A paired history is accepted and its tool uses are followed by one user message with exactly their results, in order |
| AnthropicMessages.CompactedHistoryBuildsIffCleanCut | internal/ai/agent.go:706-733 | After compacting a paired history the translation succeeds if and only if the cut was clean |
| CausalTypes.HighestSeverity | internal/causal/temporal.go:164-179 | The severity of some event that bounds all of them |
| CausalTypes.HighestIsWorst | internal/causal/temporal.go:164-179 | In words: critical if any event is, else a warning if any is, else a note if any is |
| CausalTypes.KeysIdentifyEvents | internal/causal/correlator.go:108 | Two events have one key exactly if checker, namespace, resource and kind agree, as long as the separators do not occur in the parts before them |
| GroupDeduplication.DeduplicateGroups | internal/causal/correlator.go:98-127 | Claim and release over groups sorted by confidence computes exactly the surviving groups |
| GroupDeduplication.SurvivorsAreDistinct | internal/causal/correlator.go:106-125 | Every surviving group has at least two events with different keys |
| GroupDeduplication.SurvivorsAreDisjoint | internal/causal/correlator.go:104-114 | No key occurs in two surviving groups |
| GroupDeduplication.LossesAreJustified | internal/causal/correlator.go:98-122 | A lost event is claimed by its own group or an earlier one of at least equal confidence; a dropped group had at most one unclaimed key |
| GroupDeduplication.InputGroupIsHonoured | internal/causal/correlator.go:95-127 | Of every input group at most one distinct event ends in no group, and every other one in a group of at least the same confidence |
| GroupDeduplication.AtMostOneKeyLeftOut | internal/causal/correlator.go:115-121 | At most one key of any input group ends in no surviving group |
| GroupDeduplication.SeverityStillBounds | internal/causal/correlator.go:123-124 | The severity of a group still bounds the events it keeps |
| GroupDeduplication.KeptExactly | internal/causal/correlator.go:98-114 | A group keeps exactly the first event of each of its keys that no earlier group claimed |
| GroupDeduplication.SeverityExactIff | internal/causal/correlator.go:98-124 | The stored severity is still exact if and only if some event that has it is the first of its key and claimed by no earlier group |
| GroupDeduplication.SortGroups | internal/causal/correlator.go:129-143 | A permutation ordered by severity, then confidence, ties in place |
| Timeline.FlattenEvents | internal/causal/graph.go:119-134 | The events of all error-free results in some map order |
| Timeline.FlattenIsInput | internal/causal/graph.go:119-134 | Whatever the order, exactly the issues of error-free results are seen |
| Timeline.GroupByScope | internal/causal/temporal.go:56-73 | Splits the events by namespace, keeping their order |
| TemporalCorrelator.SlidingWindow | internal/causal/temporal.go:86-107 | On events with one timestamp, one group with all of them |
| TemporalCorrelator.Correlate | internal/causal/temporal.go:55-110 | Exactly one group per namespace with at least two issues, holding all of them |
| ResourceGraph.RelatedIsSymmetric | internal/causal/graph.go:147-169 | Ownership relation is symmetric and irreflexive |
| ResourceGraph.RelatedIffOneMadeTheOther | internal/causal/graph.go:147-169 | Two resources are related exactly if one is a pod or replica set and the other a kind that makes it, with its name or a prefix of its name up to a dash |
| ResourceGraph.PickRelated | internal/causal/graph.go:93-103 | A chain takes every unused related issue, and only later ones: a released single is never picked up |
| ResourceGraph.FindStars | internal/causal/graph.go:88-107 | Disjoint stars around their smallest member; of any two related issues at least one is grouped |
| ResourceGraph.Correlate | internal/causal/graph.go:50-117 | One group per star in every namespace, with the star's events listed by resource |
| CrossCheckerRules.Apply | internal/causal/rules.go:146-229 | There is a group for a rule and namespace if and only if all required tags occur among the matches filed under the rule's name, and it holds exactly those; only one group if names differ |
| CrossCheckerRules.FiresIffTagsOccur | internal/causal/rules.go:162-210 | With different names a rule fires in a namespace if and only if each of its required tags is carried by some issue there |
| CrossCheckerRules.AllTagsPresent | internal/causal/rules.go:191-205 | Answers whether every required tag occurs among the matches |
| CrossCheckerRules.DefaultRules | internal/causal/rules.go:50-143 | The built-in rules have different names and two different required tags each |
| CrossCheckerRules.BuiltInTags | internal/causal/rules.go:50-143 | Which issues of which checkers carry which tag, with names, required tags and confidences of all four rules |
| CrossCheckerRules.CaseDoesNotMatter | internal/causal/rules.go:67-68 | Kinds that differ only in the case of letters match alike |
| CrossCheckerRules.DefaultTagsAreRequired | internal/causal/rules.go:50-143 | A built-in rule gives no tag that it does not require, and its confidence lies strictly between zero and one |
| CrossCheckerRules.TwoTagsTwoEvents | internal/causal/rules.go:191-210 | Such a rule needs two issues to fire |
| Correlator.Analyze | internal/causal/correlator.go:53-93 | Groups of at least two distinct issues of error-free results, disjoint, ordered by severity and confidence; counts right; in every namespace at most one distinct issue ungrouped. Whatever a built-in rule that applies matches, whatever makes up an ownership star and whatever shares a namespace is reported with at least that confidence, but for one distinct issue each; every reported group is part of such a finding, with its severity |
| StrategyGuarantees.StrategiesAreKept | internal/causal/correlator.go:66-75 | Deduplication keeps what the three strategies found, whatever the rules and the order in which results are visited |
| StrategyGuarantees.OomAndQuotaAreReported | internal/causal/rules.go:59-79 | A workload killed for memory and a quota in trouble in one namespace are among matches reported with confidence at least 0.85, but for one distinct issue |
| Correlator.TotalIsOrderFree | internal/causal/correlator.go:55-60 | The total does not depend on map order |
| Correlator.LeftOverIsAtMostOne | internal/causal/correlator.go:66-82 | At most one distinct issue per namespace is claimed by no surviving group |
| CorrelatorScenarios.SeverityOverstates | internal/causal/correlator.go:53-124 | On an input with a critical deployment, its critical pod and two minor services, the three strategies followed by deduplication leave a group reported as critical that holds only the two minor issues |
| BatchEnhancement.CollectIssuesForAI | internal/checker/checker.go:418-451 | Lists the non-Info issues of error-free results by checker name and position |
| BatchEnhancement.CollectedExactlyOnce | internal/checker/checker.go:418-451 | Every eligible issue is collected exactly once and nothing else is |
| BatchEnhancement.KeptAreTheMostSevere | internal/checker/checker.go:277-301 | No issue left out by the cap outranks a kept one |
| BatchEnhancement.LeftOutIsLessSevere | internal/checker/checker.go:292-300 | A critical issue is left out only if all kept ones are critical, a warning only if all kept ones are critical or warnings |
| BatchEnhancement.CriticalsAreKept | internal/checker/checker.go:277-301 | All critical issues are kept if the limit, fifteen by default, has room for them |
| BatchEnhancement.KeptPreferEarlier | internal/checker/checker.go:289-297 | Within a severity the earliest issues are kept |
| BatchEnhancement.Deduplicate | internal/checker/checker.go:303-333 | Groups the kept issues by signature, in order of first occurrence, each represented by its first issue |
| BatchEnhancement.FirstWithIsFirst | internal/checker/checker.go:315-325 | The representative has the signature and no earlier kept issue has |
| BatchEnhancement.SentDescribesFirstIssue | internal/checker/checker.go:339-343 | Each context sent has the fields of an eligible issue, the first kept one of its signature |
| BatchEnhancement.SignaturesIdentify | internal/checker/checker.go:313-317 | Issues are merged exactly if kind, severity and normalised message agree, as long as the separator does not occur in the first two |
| BatchEnhancement.GroupsPartition | internal/checker/checker.go:303-333 | Every kept issue is in exactly one group |
| BatchEnhancement.ReplyKeysDiffer | internal/checker/checker.go:363-365 | Different positions have different reply keys |
| BatchEnhancement.EnhanceAllWithAI | internal/checker/checker.go:261-413 | The results are the input with exactly the planned issues enhanced once, and the count is their number |
| BatchEnhancement.BatchIsIndexSound | internal/checker/checker.go:361-392 | Reply i changes exactly the kept issues with the i-th signature, if it has a text and more than the demanded confidence, 0.3 by default |
| BatchEnhancement.BatchOnlyEnhances | internal/checker/checker.go:361-392 | A batch call only ever enhances eligible issues, at most once each |
| ContextBudget.CapTokenBudget | internal/checker/context_builder.go:284-365 | Ends within the limit; events keep a prefix and logs a suffix, no log goes while an issue has two events, no last entry goes while anything less valuable is left, and the last removal was needed |
| ContextBudget.ContextChars | internal/checker/context_builder.go:368-379 | The total number of bytes of all events and logs |
| Regression.FittedIsLeastSquares | internal/prediction/analyzer.go:92-105 | The computed line has the least squared error of all lines and is the only one that has it |
| Regression.DenominatorSign | internal/prediction/analyzer.go:93-102 | The denominator is never negative, and zero if and only if all timestamps coincide |
| Regression.ResidualAtMostTotal | internal/prediction/analyzer.go:107-114 | Residual error is at most total error |
| Regression.RSquaredIsAFraction | internal/prediction/analyzer.go:115-123 | R squared lies in [0, 1], so its clamp never fires |
| Regression.RSquaredIsOneIffCollinear | internal/prediction/analyzer.go:107-123 | R squared is one exactly if the points lie on one line |
| Regression.SlopeFollowsData | internal/prediction/analyzer.go:92-105 | The line does not fall if the scores never fall over time, and does not rise if they never rise |
| Regression.LeverageIsVarianceOfPrediction | internal/prediction/analyzer.go:133-149 | The projection is a sum of the scores with weights that depend on the timestamps alone, and the leverage is one more than the sum of their squares |
| Regression.LinearScoresAreExtrapolated | internal/prediction/analyzer.go:125-156 | Scores on one line are continued along it for an hour, kept between 0 and 100, with R squared one and no width |
| Regression.LeverageAtLeastOne | internal/prediction/analyzer.go:145-148 | The safety floor on the leverage never fires |
| Regression.ExactDataIsRecovered | internal/prediction/analyzer.go:104-105 | Points on one line give that line and no error |
| Regression.Accumulate | internal/prediction/analyzer.go:65-86 | Accumulates the sums over the scored snapshots |
| Regression.Analyze | internal/prediction/analyzer.go:58-186 | None exactly below five scored points; otherwise the least-squares line, its fit, an interval of the stated width that contains the projection, and a trend word decided by the velocity; scores that never fall are not called degrading, scores that never rise not improving |
| RecencyList.HitsAreLatestAndFresh | internal/ai/cache.go:62-83 | A hit is the response of the latest Put of that key since the last Clear, not older than the time to live |
| RecencyList.UsedKeysAreKept | internal/ai/cache.go:87-117 | A key stays while fewer than capacity other keys are used after it and it is not asked for too late |
| RecencyList.ListStaysValid | internal/ai/cache.go:104-117 | The list never exceeds the capacity and has each key once |
| ResponseCache.Cache.Get | internal/ai/cache.go:62-83 | Map and list stay in agreement; hit, miss, expiry and recency as on the plain list |
| ResponseCache.Cache.Put | internal/ai/cache.go:87-117 | Update in place, eviction and insertion as on the plain list |
| ResponseCache.Cache.Clear | internal/ai/cache.go:120-129 | Empties map and list |
| JsonEscapes.FixInvalidJSONEscapes | internal/ai/openai.go:297-326 | Repair by parity of backslash runs equals reading escapes pair by pair |
| JsonEscapes.RepairedIsValid | internal/ai/openai.go:294-326 | Every escape of the output that is followed by a character is legal |
| JsonEscapes.UnchangedIffValid | internal/ai/openai.go:294-326 | Exactly the valid texts are left unchanged |
| JsonEscapes.RepairIsIdempotent | internal/ai/openai.go:297-326 | Repairing twice is repairing once |
| JsonEscapes.OnlyBackslashesGo | internal/ai/openai.go:314-317 | Only backslashes are removed |
| JsonEscapes.RepairIsMinimal | internal/ai/openai.go:295-317 | No valid text obtained by leaving out backslashes is longer |
| ResourcePaths.EscapeRoundTrip | internal/datasource/console.go:237-241 | Decoding undoes the escaping of a path segment |
| ResourcePaths.RecoveredIffSegments | internal/console/handler.go:90-128 | Through escaping, the multiplexer's cleaning and parsing, and for a cluster that needs no escaping, the server understands exactly the client's request if and only if cluster, used namespace and name are non-empty, have no slash and are neither . nor .. |
| ResourcePaths.ValidatedRequestRecoveredIff | internal/datasource/console.go:72-96 | For a cluster identifier that passed validation the used namespace and the name alone decide |
| ResourcePaths.PathsAreDistinct | internal/datasource/console.go:235-253 | Different recoverable requests have different paths |
| ResourcePaths.EmptyNameBecomesList | internal/console/handler.go:118-128 | A Get with an empty name reaches the server as a List |
| ResourcePaths.DotNameBecomesList | internal/console/handler.go:58-60 | So does a Get for the name ., which the multiplexer cleans away |

## Left out

- Provider selection, HTTP calls, JSON encoding, server-sent events, metrics and logging; provider replies are arbitrary inputs and message contents are values.
- Aliasing: results that share `AIStatus` pointers with a broadcast update: updates are values, so aliasing between `cs.latest` and what clients receive is not captured; nor are the deep copies of enrichment_snapshot.go.
- Worker shutdown and the cancellation of the queue's context.
- Summary counters, health history, issue snoozes, deployment readiness and causal insights of the dashboard update.
- The synchronous AI path (`runAIAnalysisForCluster`) and the explain endpoint.
- TokenBudget.Budget.TryConsume: a nil budget is a budget without windows.
- AnthropicMessages.BuildAnthropicMessages: marshalling errors caused by invalid JSON in tool arguments are not modelled; contents are values.
- ChatHistory.MaybeCompactHistory: the program cuts summarised texts after 100 runes, the model after 100 `char`s, so for texts that are not ASCII the summary may differ; which messages are kept does not depend on it.
- ChatTurn.RunTurn: the answers of the two budgets, cancellation, provider replies and tool outputs are inputs; `TurnIsRunOfOneCaller` places a turn whose budget answers are those of the accounting inside it.
- DashboardResults.BuildDashboardResults: the summary counters and the health score of the same function are left out.
- CrossCheckerRules.DefaultRules: letters are upper-cased as ASCII.
- ResourceGraph.Correlate: identifiers, titles and root-cause texts of groups; the texts of all three strategies are left out.
- TemporalCorrelator.SlidingWindow: its contract speaks of events with one timestamp, the only ones `Correlate` creates.
- BatchEnhancement.EnhanceAllWithAI: log enrichment and sanitising of the request are part of the provider function; the filtered-issue metric is left out.
- ResourcePaths.RecoveredIffSegments: the path only; query parameters and the base URL are left out.
- Regression.Analyze: exact reals instead of floating point, values before display rounding; risky checkers and severity trajectories are left out.
- The queue makes no fairness promise: a fresh cluster can overtake a pending one.
- Individual checkers, controllers, command line, notifiers, authentication, generated code and the web front end: no property beyond single branches.
