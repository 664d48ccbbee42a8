# Verified model of the incident-investigation workbench

The workbench investigates incidents with a bounded workflow of model, tool and specialist calls. It
proposes write actions, waits for a human approval, executes what was approved, and records every step in
an event log that browsers follow live. This project models its core in Dafny and proves what that core is
for, over every run, interleaving and environment.

Check everything with `dafny verify dfyconfig.toml`.

## The pieces

* **Event log.** `EventLog` is the optimistic append as a protocol: any number of calls, each looking up
  its id, reading the maximum and inserting in separate steps, with reads that may be stale and the UNIQUE
  constraints as arbiter. `EventTable` is the same as a method with a retry loop, with other transactions
  between any two statements. `EventReader` is the reading side: cursor pages, the events endpoint, and
  the browser client that fetches, streams, drops, is redelivered to and reconnects.
* **Investigation graph.** `Graph` gives every step of the bounded workflow as a function on run states.
  Model, tools, specialist, policy, clock and canceller are oracles indexed by a tick that advances with
  every look at the outside, so a statement about every `Env` is about every behaviour of the outside.
  `Op` sequences (run, resume, new graph object) are the histories of one run. `GraphNodes`, `GraphFindings` and
  `GraphEnds` say what every step does in terms of the environment's answers alone. `Budget` and `GraphLedger` treat
  ledger and cancellation, `GraphShape` contents and order of states, `GraphActions` and `GraphRepeats` the
  write actions,
  `GraphTrace` the event grammar, `GraphBounds` the closed-form bounds, `GraphDegraded` the degraded flag,
  `Breaker` the circuit breaker. `CalmRun` follows a run whose outside always answers; `GraphExamples` holds
  concrete histories. `GraphMachine` is the graph as the imperative program it is, with its record, loops
  and breaker object, proved equal to those functions.
* **Approval gate.** `Gateway` is the request level: durable approval rows, cached run states, remembered
  replies, saves whose inserts may fail, process restarts. `GatewayAnswers` says what each is
  answered, guard by guard; `GatewaySafety`, `GatewayOnce` and
  `GatewayRejection` prove what it guarantees; `GatewayMachine` is its imperative form.
* **Tool executor.** `Executor` splits a call at its await, so that other calls run in between, or the process
  restarts.
* **Rate limiter, replay, redaction, rebuilt view.** `RateLimit` over unbounded traces, `Replay` with
  `StableSort`, `Redaction` over nested values, `CachedView` against the persisted log, and `GatewayView` the same
  under the gateway.

## Where the code is weaker than one would think

The model follows the code. Each point has its concrete or conditional lemma beside the theorem it limits.

* Rejecting through the gateway leaves the run at the approval state, so another of its approvals can set
  it going (`RejectedThroughTheGatewayStillActs`; exactly what is invoked: `ApprovalAtTheGateInvokes`). A run
  rejected through the graph's own resume never acts (`RejectedNeverActs`).
* Marking an approval expired is rolled back with the error it raises; the row stays pending for good
  (`ExpiredRowsStayPending`), and can never be decided.
* A decision sent on the path of another run answers "not found" and stands (`RefusedApprovalStands`; exactly
  when: `NotFoundCommitsIff`).
* `a2a_fallback` is not reset. After a delegation that crashed on a malformed error reply, a second run can
  succeed with the flag still up (`RerunAfterCrashActsDegraded`; exactly when: `FlagMisleadsIffBadlyRefused`, and
  before the call: `OneMoreRunKeepsFlag`). What holds over every history is that no specialist result means no
  action (`NoSpecialistNoAction`).
* The executor's gate takes the truth value of the raw `dry_run`, and true when it is left out; the input schema
  takes the text "false" for false, and false for a ticket that leaves it out. Such requests are real writes that
  need neither approval nor key (`MisreadFlagsAreUngated`; exactly when: `UngatedWriteRunsIff`, and over every
  behaviour `WritesAreGatedUnlessMisread`).
* Overlapping tool calls with one key can both run their handler (`OverlapCanRunTwice`; within one process
  exactly when: `TwoSuccessesIffOverlap`), and the in-memory store forgets keys with a restart
  (`RestartRunsAgain`; any two successes are explained by one or the other: `SuccessesOverlap`).
* Proposals rebuilt from events are missing without a gate visit (`DeniedRunHidesProposals`) or with one behind
  the first 1000 events (`LateGateHidesProposals`), and doubled by a second one (`SecondVisitDoublesProposals`;
  exactly when they agree: `ActionsAgreeIff`).
* An event id behind the first 1000 events is not found by the events endpoint, which then falls back
  to cursor 0, as for a first request (`ResumeByEventId`).
* A stream client never gets event 0, the gateway's own start of the run: without a cursor the endpoint asks for
  what lies behind 0 (`ClientHoldsAPrefix` counts from 1).
* A clock that steps back makes an approved action run twice (`ClockStepsBackActsTwice`; exactly when, for every
  clock and canceller: `TwiceIffRepeated`).
* Running a finished run again adds another terminal event (`FinishedRunEndsTwice`); `EveryCallEndsOnce` is
  therefore about each call and `TraceGrammar` about one run with its resume.

Two assumptions are named where they are needed, and nowhere else: the cancel flag is not taken back
(`StickyCancel`), and a look at the clock that finds a run's time used up is not taken back (`TimeoutLasts`, which
a forward clock gives: `ForwardClockLasts`). They carry the results that compare several calls on one run: at
most once, the one unit of overshoot, nothing after a cancel.

## Model

| member | source | states |
|---|---|---|
| `EventLog.StaleNumberIsArbitrated` | packages/persistence/repositories.py:471-514 | with the next number read from any committed prefix, the UNIQUE constraints admit the insert only if it is exactly the run's next number, and the table stays dense |
| `EventLog.FreshNumberIsInsertable` | packages/persistence/repositories.py:407-411 | a number and an id looked up in the current table are never refused |
| `EventLog.RefusalMeansNewCommit` | packages/persistence/repositories.py:500-504 | a refused insert proves that a row of the same run or with the same event id was committed since the attempt began |
| `EventLog.StepKeepsInv` | packages/persistence/repositories.py:452-514 | every step of every call, under any interleaving and stale reads, keeps the table and what each call knows of it |
| `EventLog.LogIsDense` | packages/persistence/repositories.py:407-411 | in every reachable state a run's sequences are 0..n-1 in commit order, and each event id has one row |
| `EventLog.LogOnlyGrows` | packages/persistence/repositories.py:496-514 | committed rows are never changed, reordered or removed |
| `EventLog.GivingUpTakesFourOvertakers` | packages/persistence/repositories.py:471-514 | ConflictError only after at least four commits, between the call's start and end, of rows of its own run or with an id it tried, none of them its own |
| `EventLog.SameEventIdSameRow` | packages/persistence/repositories.py:476-479 | all calls that return for one supplied event id return the same row, whenever they run |
| `EventLog.AtMostOneRowPerCall` | packages/persistence/repositories.py:471-514 | a call commits at most one row, and only if it returns it |
| `EventLog.RowsCarryTheirRequests` | packages/persistence/repositories.py:482-494 | over every behaviour a committed row has run, kind, data and flags of its author's request and the id it supplied; none is both sensitive and safe for the UI |
| `EventLog.RefusalsAreDue` | packages/persistence/repositories.py:467-475 | over every behaviour a call is refused for its flags if and only if they contradict each other, and for its run only if that was not its tenant's when it began |
| `EventLog.EventTable.Attempt` | packages/persistence/repositories.py:472-513 | one attempt with other transactions between its statements: a row stored as the run's next number with the request's kind, data and flags, an existing one found, overtaken, or refused exactly when the run is not the tenant's |
| `EventLog.EventTable.AppendNextEvent` | packages/persistence/repositories.py:452-514 | the retry loop: new row appended last with its number and the request's content under a supplied or generated id, existing row, or conflict after four overtaking rows of its run or ids; contradictory flags refused, exactly then and without effect |
| `EventLog.InsertIsArbitrated` | packages/persistence/repositories.py:480-504 | the insert step against the two snapshots its reads were answered from |
| `EventReader.ListEvents` | packages/persistence/repositories.py:516-536 | rejects limits outside 1..5000 and foreign runs, each with its own answer; otherwise exactly the slice of the run's rows behind the cursor, at most `limit` of them |
| `EventReader.PageIsSlice` | packages/persistence/repositories.py:525-533 | a page is the contiguous slice of the run's rows just behind the cursor |
| `EventReader.EmptyPageMeansCaughtUp` | packages/persistence/repositories.py:525-533 | a page is empty exactly when nothing lies behind the cursor |
| `EventReader.PagesConcatenate` | packages/persistence/repositories.py:516-536 | from any cursor, the default -1 included, pages read while the log grows concatenate to one contiguous slice: nothing lost, nothing repeated |
| `EventReader.ResumeByEventId` | apps/api/routes/runs.py:297-310 | resuming by the id of the run's event number k, for every k and limit: from behind it if k is among the first 1000, else from cursor 0; the page is as long as the limit or the log allows |
| `EventReader.CursorOfRequest` | apps/api/routes/runs.py:297-305 | the cursor of a request: its own number unless 0, else a number in the header as it is, else 0 if neither is given or no event has the id |
| `EventReader.BatchOfAscending` | ui/web/src/lib/agui.ts:113-122 | mapping an in-order batch keeps the renderable events in log order |
| `EventReader.OnEventKeepsPrefix` | ui/web/src/hooks/useRunEvents.ts:144-153 | an event the client has, or the next one, leaves it with a contiguous prefix |
| `EventReader.CatchUpKeepsClient` | ui/web/src/lib/api.ts:270-276 | a reconnect's fetch keeps the prefix and moves the cursor to the end of the page |
| `EventReader.MoveKeepsOk` | ui/web/src/hooks/useRunEvents.ts:123-173 | every commit, fetch, delivery, redelivery, drop, reconnect and restart keeps client and channels consistent with the log |
| `EventReader.ClientHoldsAPrefix` | ui/web/src/hooks/useRunEvents.ts:76-91 | in every history the client holds exactly the events 1..lastSequence and shows, in log order and each once, those not sensitive and marked safe for the UI, with their number, id, run, data and mapped kind |
| `EventReader.ReconnectCatchesUp` | ui/web/src/lib/api.ts:265-283 | a catch-up brings the client `limit` events further or to the end of the log |
| `EventReader.FirstFetchIsHeld` | ui/web/src/hooks/useRunEvents.ts:123-142 | the first fetch: the client holds exactly the page that answers it, and its cursor is the page's end |
| `EventReader.AsksForItsPage` | ui/web/src/lib/api.ts:213-224 | what each fetch and stream asks for: the slice of the log as it is then, behind the cursor |
| `EventReader.MovesMoveTheClient` | ui/web/src/hooks/useRunEvents.ts:123-173 | what an arriving fetch, a delivered event, a dropped response and a reload do to client and channels |
| `EventReader.ClosesIff` | ui/web/src/hooks/useRunEvents.ts:148-152 | a live event closes the client if and only if it may be shown and is run.completed, run.failed or run.cancelled |
| `EventReader.RunEventsClient.IngestEvents` | ui/web/src/hooks/useRunEvents.ts:76-91 | ingest's two loops against the reference fold: greatest sequence, first event per sequence kept |
| `EventReader.RunEventsClient.HandleEvent` | ui/web/src/hooks/useRunEvents.ts:144-153 | one live event: ingested unless terminal, terminal flag set by a terminal AG-UI event |
| `EventReader.RunEventsClient.HandleCatchUp` | ui/web/src/lib/api.ts:270-276 | the catch-up loop hands on exactly what lies behind the cursor |
| `EventReader.RunEventsClient.HandleMessage` | ui/web/src/lib/api.ts:226-240 | a stream message moves the cursor forward only |
| `EventReader.MapBatch` | ui/web/src/lib/agui.ts:113-122 | the batch adapter returns, sorted by number, the mappings of exactly the events that are not sensitive and marked safe for the UI, each once; an in-order batch in its order |
| `RateLimit.KeysDoNotInterfere` | packages/security/limits.py:107-115 | a decision depends only on earlier calls with the same key |
| `RateLimit.WindowBound` | packages/security/limits.py:107-115 | for every trace, key and window, calls allowed inside it number at most capacity plus what the window earns; no assumption on the clock |
| `RateLimit.WindowBoundPerSecond` | packages/security/limits.py:99-115 | the same bound for a limiter that earns refill_per_sec tokens a second |
| `RateLimit.GrantedCounts` | packages/security/limits.py:107-115 | what the bound counts: the calls of the key with a time in the window that were let through |
| `RateLimit.AllowedIffEveryWindowHasRoom` | packages/security/limits.py:107-115 | with a forward clock a call is allowed if and only if no window ending with it would exceed its allowance |
| `RateLimit.AllowedIffPerSecond` | packages/security/limits.py:99-115 | the same in the limiter's own capacity and refill rate |
| `RateLimit.DeniedCallsChangeNoDecision` | packages/security/limits.py:107-115 | deleting denied calls from a trace changes no other decision |
| `RateLimit.RateLimiter.constructor` | packages/security/limits.py:99-105 | a new limiter has its capacity, earns dt * refill_per_sec in every span dt, and has no calls behind it |
| `RateLimit.RateLimiter.Allow` | packages/security/limits.py:107-115 | the method decides and updates one bucket as the trace semantics say, and no other bucket |
| `StableSort.SortSorts` | tests/evaluation/replay.py:27 | sorting by sequence gives an ordered permutation |
| `StableSort.SortIsStable` | tests/evaluation/replay.py:27 | events with equal sequence keep their order |
| `Replay.KeptAreTheWinners` | tests/evaluation/replay.py:27-37 | what is folded is the first event given for each sequence, in ascending order |
| `Replay.ReplayDependsOnTheSet` | tests/evaluation/replay.py:26-57 | reordering or repeating identical events changes neither state nor events replayed |
| `Replay.LateDuplicatesAreSkipped` | tests/evaluation/replay.py:34-36 | what comes again under a known sequence only raises the skipped count, even if it differs |
| `Replay.CountsAndGaps` | tests/evaluation/replay.py:48-57 | replay raises exactly when the distinct sequences are not an interval; replayed + skipped is the input length |
| `Replay.ReplayResumes` | tests/evaluation/replay.py:26-57 | on in-order logs, replaying a prefix and continuing equals replaying the whole |
| `Replay.ReplayShowsTheKept` | tests/evaluation/replay.py:34-56 | the view by kinds: findings, approvals and tools are the object payloads of their kinds among the kept events, in order, and the end is the last terminal kind |
| `Replay.ReplayLog` | tests/evaluation/replay.py:26-57 | the loop, with its seen-set and range test, computes that result |
| `Redaction.SensitiveJoin` | packages/persistence/repositories.py:80-85 | no sensitive word spans a dot, so a joined path is sensitive exactly when a part is |
| `Redaction.GuardNeverFires` | packages/persistence/repositories.py:131-147 | although the guard joins paths differently it never fires on a redacted value, below any prefix |
| `Redaction.RedactedPassesGuard` | packages/persistence/repositories.py:116-147 | redacted values always pass the guard |
| `Redaction.RedactIsIdempotent` | packages/persistence/repositories.py:116-122 | redacting twice is redacting once, provided the marker is not secret-shaped |
| `Redaction.RedactByLeaf` | packages/persistence/repositories.py:96-113 | leaf by leaf: structure kept, a string replaced exactly when its key path is sensitive or it is secret-shaped |
| `Redaction.SensitiveKeys` | packages/persistence/repositories.py:80-85 | every key that holds one of the pattern's words, with any text around it, is sensitive |
| `Redaction.CaseDoesNotMatter` | packages/persistence/repositories.py:80-85 | sensitivity does not depend on the case of letters |
| `Redaction.OrdinaryKeys` | packages/persistence/repositories.py:80-85 | keys that are shorter than every word or have none of their initials are not sensitive |
| `Redaction.MarkedIffKeyOrShape` | packages/persistence/repositories.py:96-122 | in terms of keys alone: a string becomes the marker if and only if some key above it is sensitive or its own shape is secret |
| `Redaction.RedactedIsAlike` | packages/persistence/repositories.py:96-113 | keys, order, list lengths and all values but strings are kept |
| `Redaction.GuardFiresIff` | packages/persistence/repositories.py:131-147 | the guard fires if and only if a string that is not the marker stands under a sensitive key |
| `Executor.StoreIsWriteOnce` | apps/mcp_server/executor.py:411-415 | as long as the process lives store entries never change, even when calls overlap at the await |
| `Executor.StoreKeepsFirstResult` | apps/mcp_server/executor.py:383-415 | an entry holds the input hash and result of the process's first handler success for its tool and key |
| `Executor.AuditIsComplete` | apps/mcp_server/executor.py:302-340 | in every interleaving the audit log is exactly one matching record per call that its process finished and that is due one, in order |
| `Executor.UngatedWriteRunsIff` | apps/mcp_server/executor.py:369-382 | an unapproved or unkeyed real write passes the gate if and only if it is authorized and valid, its key, if any, is new, and its dry_run is misread: left out of a ticket request, or true as a value and parsed as false |
| `Executor.MisreadFlagsAreUngated` | apps/mcp_server/executor.py:294 | the inputs: a ticket request without dry_run, and a rollback with the text "false" for it, unapproved and unkeyed, await their handlers as real writes |
| `Executor.WritesAreGatedUnlessMisread` | apps/mcp_server/executor.py:369-382 | in every behaviour a call that awaits its handler is a real write lacking approval or key if and only if it is a write with a misread dry_run that lacks them |
| `Executor.SuccessesOverlap` | apps/mcp_server/executor.py:383-415 | of any two handler successes in one slot, ever, either the later call was already awaiting when the earlier returned, or a restart lies between; never both |
| `Executor.TwoSuccessesIffOverlap` | apps/mcp_server/executor.py:383-415 | over every interleaving some tool and key sees two successes within one process if and only if two of its succeeding calls awaited at once |
| `Executor.AtMostOneSuccess` | apps/mcp_server/executor.py:400-415 | if no keyed call starts while one of its own slot awaits, a handler succeeds at most once per tool and key within one process, whatever else overlaps |
| `Executor.OverlapCanRunTwice` | apps/mcp_server/executor.py:383-415 | two overlapping calls that pass the gate both run; the store keeps the first result |
| `Executor.RestartRunsAgain` | apps/mcp_server/store.py:9-10 | the store is in memory: after a restart a call that succeeded before runs and succeeds again |
| `Executor.LaterCallsReplay` | apps/mcp_server/executor.py:383-398 | after a success in its process, a later call past the earlier gates runs no handler: the first result, deduplicated, exactly when its hash matches, else a conflict |
| `Executor.CallsRunIff` | apps/mcp_server/executor.py:286-398 | for every store and request, guard by guard: a call goes on to its handler if and only if its tool is known, it is authorized and valid, a real write is approved and keyed, and a write's key is free; otherwise its error or the remembered result |
| `Executor.HandlersAreAnswered` | apps/mcp_server/executor.py:400-431 | what every handler outcome is answered with and what it leaves in the store, keyed or not |
| `Executor.ToolServer.RaiseToolError` | apps/mcp_server/executor.py:420-431 | the except clause: one record, denial codes recorded as denied |
| `Executor.ToolServer.BeforeAwait` | apps/mcp_server/executor.py:286-398 | the part before the await against the gate's specification |
| `Executor.ToolServer.AfterAwait` | apps/mcp_server/executor.py:400-419 | the part after the await: result stored once, one record |
| `Breaker.OpenIffTrailingFailures` | apps/orchestrator/graph.py:498-516 | under guard-before-call the counter is the number of trailing failures and the dependency is open exactly at the threshold |
| `Breaker.OpenIsForGood` | apps/orchestrator/graph.py:504-506 | once open, a dependency is never called again and stays open |
| `Breaker.CircuitBreaker.RecordSuccess` | apps/orchestrator/graph.py:508-510 | closes and resets one dependency |
| `Breaker.CircuitBreaker.RecordFailure` | apps/orchestrator/graph.py:512-516 | counts a failure and opens at three |
| `Budget.BillKeeps` | apps/orchestrator/graph.py:603-618 | charge, check, call: the ledger always covers the work; a settled ledger stays settled or is one unit ahead and blocked for every later check |
| `Budget.CheckCancelKeeps` | apps/orchestrator/graph.py:577-579 | the cancel check and what it proves about the flag |
| `Budget.CheckBudgetsKeeps` | apps/orchestrator/graph.py:581-601 | a failed check blocks, blocking lasts, and if a time-out lasts a check is passed only if nothing blocked before |
| `Budget.LedgerMeaning` | apps/orchestrator/graph.py:581-618 | cost equals 5 model + 1 tool + 10 delegation cents; every call had all counters within limits; the work done is within the ledger and the limits |
| `Budget.AtMostOneCallAfterCancel` | apps/orchestrator/graph.py:577-579 | of two calls the earlier started before the flag was set |
| `Budget.OverNames` | apps/orchestrator/graph.py:581-601 | a budget error names the first counter over its limit in the order of the checks; there is none exactly when all are within |
| `GraphLedger.DispatchMoves` | apps/orchestrator/graph.py:759-797 | every node keeps the ledger invariant, and its budget or cancel exception is sticky |
| `GraphLedger.BudgetIsConserved` | apps/orchestrator/graph.py:581-618 | conservation over any number of runs, resumes and new graphs, for every clock and canceller: ledger price, limits at each call, cap on the work done |
| `GraphLedger.OvershootIsOneUnit` | apps/orchestrator/graph.py:603-611 | if a time-out lasts, the ledger is the work done or one unit ahead of it, over every history |
| `GraphLedger.CancelStopsCalls` | apps/orchestrator/graph.py:577-579 | over every history, once the flag is set at most one further model, tool or delegation call starts |
| `GraphLedger.CancelledBetweenCallsDoesNothing` | apps/orchestrator/graph.py:842-866 | a run whose flag is up between two calls starts no call ever again, however often it is run or resumed, and every later call of run ends cancelled |
| `GraphShape.TurnClimbs` | apps/orchestrator/graph.py:766-797 | whenever the driver goes on it is at the next state, so it halts; it returns only from terminal exits or the gate |
| `GraphShape.ReadsNeedASuccess` | apps/orchestrator/graph.py:935-955 | passing mcp_reads needs a success among the first three reads, for any breaker history; evidence is then not empty |
| `GraphShape.OwnFindingsAreWeak` | apps/orchestrator/graph.py:1009-1021 | without a specialist result no finding exceeds 0.45 |
| `GraphShape.NormalisedAreWellFormed` | apps/orchestrator/graph.py:1023-1046 | kept findings have confidence in [0,1], matching severity, and bounded non-empty title, summary and references |
| `GraphShape.WeighingOnlyLowers` | apps/orchestrator/graph.py:974-990 | weighing keeps every finding and never raises a confidence: at most 0.6 on a conflict, 0.15 lower when degraded, else unchanged |
| `GraphShape.TopIsMax` | apps/orchestrator/graph.py:1079 | the finding the ticket is built on has the greatest confidence |
| `GraphShape.ReachableShape` | apps/orchestrator/graph.py:759-1255 | the contents invariant over every history: what is proposed, on which findings, with which evidence |
| `GraphShape.ActingIsGrounded` | apps/orchestrator/graph.py:1052-1108 | states at or past propose have a specialist result and a finding of at least 0.5; confidences are in [0,1]; the ticket is not of low severity; evidence is not empty |
| `GraphActions.StuckStops` | apps/orchestrator/graph.py:577-601 | after a budget or cancel stop, every later turn stops at the driver's checks and starts nothing |
| `GraphActions.ExecuteActs` | apps/orchestrator/graph.py:1187-1229 | execution invokes the approved actions in order, all of them if not stopped, and never stops for the allowlist |
| `GraphActions.ReachableHeld` | apps/orchestrator/graph.py:1140-1181 | over every history, for every clock and canceller: no action before the gate, none without a specialist result, none on an early end |
| `GraphActions.ReachableActs` | apps/orchestrator/graph.py:759-884 | over every history the invoked actions are a prefix of the approved ones in proposed order |
| `GraphActions.ActionsRunAtMostOnce` | apps/orchestrator/graph.py:1183-1229 | over any runs, resumes and cancels, if flag and time-out last, no action is invoked twice; each invoked one was proposed and approved |
| `GraphRepeats.RunInvokes` | apps/orchestrator/graph.py:759-797 | from every state, for every clock and canceller, a call of run adds exactly the approved actions let through in order if it sets out at the execution, else nothing |
| `GraphRepeats.TwiceIffRepeated` | apps/orchestrator/graph.py:577-601 | over every history, for every clock and canceller, an action is invoked twice if and only if the run was once called again where it had stopped among its actions and something was then let through |
| `GraphExamples.ClockStepsBackActsTwice` | apps/orchestrator/graph.py:264-266 | a concrete history: one look at a clock that steps back stops the run after its first action, and the next call invokes it again |
| `GraphActions.DoneMeansAllApprovedWereInvoked` | apps/orchestrator/graph.py:1237-1239 | a run completed normally has invoked every approved action |
| `GraphActions.EarlyExitsInvokeNothing` | apps/orchestrator/graph.py:1140-1151 | a run ended by clarify, more_info, denied or rejected has invoked nothing |
| `GraphActions.NothingBeforeApproval` | apps/orchestrator/graph.py:852-864 | until a resume says approved, no action is invoked |
| `GraphActions.RejectedNeverActs` | apps/orchestrator/graph.py:865-884 | a run resumed as rejected or expired invokes nothing, whatever follows |
| `GraphActions.NoSpecialistNoAction` | apps/orchestrator/graph.py:1052-1071 | over every history a run without a specialist result proposes and invokes nothing and never waits for approval |
| `GraphTrace.McpReadLog` | apps/orchestrator/graph.py:628-665 | a read leaves tool events balanced, or one open when stopped by budget or cancel |
| `GraphTrace.DispatchLog` | apps/orchestrator/graph.py:887-1255 | what every node adds to the log: no terminal and the right depth, or exactly one terminal, last |
| `GraphTrace.EventsAreNumberedAndNested` | apps/orchestrator/graph.py:543-568 | over every history, for every clock and canceller, events are numbered 1..n and no tool completes that did not start |
| `GraphTrace.OpenToolsMeanStopped` | apps/orchestrator/graph.py:621-665 | over every history with a lasting flag and time-out, tools stay open only in failed or cancelled runs or around the reads |
| `GraphTrace.EveryCallEndsOnce` | apps/orchestrator/graph.py:799-840 | whatever happened before, a call of run or a resume ends paused without a terminal event or adds exactly one, its last |
| `GraphTrace.TraceGrammar` | apps/orchestrator/graph.py:543-575 | one run and its resume, for every clock and canceller: numbering, exactly one terminal and last unless paused, balanced tools when completed or paused |
| `GraphExamples.FinishedRunEndsTwice` | apps/orchestrator/graph.py:759-764 | a concrete run that is rejected, ended, run again, and has two terminal events |
| `GraphBounds.TurnSpends` | apps/orchestrator/graph.py:932-955 | what each turn may add to the ledger, by state |
| `GraphBounds.OneRunIsBounded` | apps/orchestrator/graph.py:632-656 | one run and one resume use at most 2 model calls, 17 tool calls, 1 delegation and 37 cents, for all limits, clocks and cancellers |
| `GraphBounds.DefaultLimitsFailOnTimeOnly` | apps/orchestrator/state.py:17-27 | so the default limits can fail on the duration only |
| `GraphNodes.ClassifyOutcomes` | apps/orchestrator/graph.py:887-912 | classification by the model's reply: crash, clarify exit, or plan, with what is logged |
| `GraphNodes.PlanOutcomes` | apps/orchestrator/graph.py:914-922 | planning by the model's reply |
| `GraphNodes.ReadOutcomes` | apps/orchestrator/graph.py:621-665 | a read for every tool: at most three calls, only timeouts tried again, result and events by the last answer |
| `GraphNodes.ReadIsRecorded` | apps/orchestrator/graph.py:935-955 | the answer becomes evidence under the tool it names or the tool asked |
| `GraphNodes.FourReads` | apps/orchestrator/graph.py:935-955 | metrics, logs, health and release in this order; the first that stops stops the node |
| `GraphNodes.DelegationOutcomes` | apps/orchestrator/graph.py:669-756 | the delegation reply by reply: findings, degraded, cancelled or crashed, with flag and events |
| `GraphNodes.DelegationIsRecorded` | apps/orchestrator/graph.py:716-755 | which replies the breaker counts as success or failure |
| `GraphFindings.CorrelationOutcomes` | apps/orchestrator/graph.py:957-1002 | the contradiction with healthy evidence and each finding's new confidence, exactly |
| `GraphFindings.FindingsOutcomes` | apps/orchestrator/graph.py:1004-1074 | exactly the findings with title, summary and reference are kept and logged; the run goes on if and only if one reaches 0.5 |
| `GraphFindings.NormaliseKeeps` | apps/orchestrator/graph.py:1023-1046 | what is kept of each raw finding, field by field, in order |
| `GraphFindings.ProposalOutcomes` | apps/orchestrator/graph.py:1076-1114 | a ticket of the first most trusted finding's severity, and a rollback if and only if a title mentions a deployment |
| `GraphNodes.PolicyOutcomes` | apps/orchestrator/graph.py:1116-1154 | to the gate if and only if the policy allows every action, denied if and only if it raises for none and refuses one, crashed if and only if it raises; judgements are its answers under the actions' tools |
| `GraphEnds.OnlyTheAllowedIsAskedFor` | apps/orchestrator/graph.py:1116-1181 | over every history a run at or past the gate, or that invoked something, carries one allowing judgement for each action |
| `GraphEnds.PauseOutcomes` | apps/orchestrator/graph.py:1156-1181 | one pending request per action behind those that there are, and the gate event |
| `GraphEnds.ExecutionOutcomes` | apps/orchestrator/graph.py:1183-1229 | each invocation logged as started and completed with whether the tool answered, in the order of the calls |
| `GraphEnds.VerificationOutcomes` | apps/orchestrator/graph.py:1231-1235 | a failed verifying read is tolerated and not recorded |
| `GraphEnds.CompletionOutcomes` | apps/orchestrator/graph.py:1237-1255 | the end keeps an earlier verdict and logs it |
| `GraphEnds.ExceptionsClose` | apps/orchestrator/graph.py:799-840 | status, verdict, error and terminal event for each kind of exception |
| `GraphEnds.ApprovalSendsOff` | apps/orchestrator/graph.py:842-864 | a resume is refused unless the run waits and the decision is one; an approval marks every request and sends the run to the execution |
| `GraphEnds.RefusalEndsTheRun` | apps/orchestrator/graph.py:865-884 | any other decision marks every request and ends the run as rejected |
| `GraphEnds.GuardOutcomes` | apps/orchestrator/graph.py:577-601 | the checks before every turn: exactly when they stop it, and as what |
| `GraphEnds.PaymentOutcomes` | apps/orchestrator/graph.py:603-618 | a call's price, and exactly when it starts |
| `GraphEnds.PassOutcomes` | apps/orchestrator/graph.py:759-797 | the driver by its turns: go on, give back, or close; a created run is started first |
| `GraphDegraded.DegradedRunsNeverAct` | apps/orchestrator/graph.py:669-756 | in one run and its resume the degraded flag means no specialist result, best confidence at most 0.45, nothing proposed or invoked |
| `GraphDegraded.PassKeepsFlag` | apps/orchestrator/graph.py:669-756 | every driver pass from every state: one that brings a result leaves the flag telling the truth exactly when it was down at the call; one that starts behind the delegation changes neither |
| `GraphDegraded.OneMoreRunKeepsFlag` | apps/orchestrator/graph.py:759-840 | after any history, a further run that brings a result ends with the flag up if and only if it was up before |
| `GraphDegraded.FlagMisleadsIffBadlyRefused` | apps/orchestrator/graph.py:739-746 | over every history a run with a specialist result carries the flag if and only if one of its delegations was answered as not completed with an error that is no mapping |
| `GraphDegraded.RerunAfterCrashActsDegraded` | apps/orchestrator/graph.py:739-746 | a concrete run that crashes on a malformed error reply, is run again, and comes to the gate with the flag up |
| `CachedView.FindingsFromEvents` | apps/api/routes/runs.py:226-243 | the rebuild loop folds findings and proposals in log order |
| `CachedView.ReachableMirrors` | apps/orchestrator/graph.py:1049-1051 | over every history the log carries the findings once and, at every visit of the gate, exactly the proposals |
| `CachedView.RebuiltFromRows` | packages/persistence/repositories.py:470 | persisting with redaction and with the gateway's own events at any place, the run's start first, commutes with rebuilding |
| `CachedView.FindingsAgree` | apps/api/routes/runs.py:203-243 | the view from the first 1000 events is a prefix of the cached findings up to redaction, and equal exactly when no later event is a finding |
| `CachedView.ActionsAgreeIff` | apps/api/routes/runs.py:226-243 | proposals rebuilt from the first 1000 persisted events are the cached ones, up to redaction, exactly when the gate was visited once among those events or nothing was proposed |
| `CachedView.ActionsAgreePastTheGate` | apps/api/routes/runs.py:203-243 | for every run and resume that came to the gate they agree exactly when no gate event lies behind the first 1000 |
| `GatewayView.ViewsMatch` | apps/api/routes/runs.py:192-243 | over every request sequence, for every cached run of the gateway: findings and proposals rebuilt from the persisted rows match the cached state exactly as stated for the graph alone |
| `GraphExamples.LateGateHidesProposals` | apps/api/routes/runs.py:226-243 | a concrete waiting run whose specialist gave 1000 findings: one gate visit, and no proposal in the rebuilt view |
| `GraphExamples.SecondVisitDoublesProposals` | apps/api/routes/runs.py:238-243 | a concrete waiting run that is run again: two gate visits, every proposal twice in the rebuilt view |
| `GraphExamples.DeniedRunHidesProposals` | apps/api/routes/runs.py:238-243 | a concrete run denied by the policy: proposals cached, none in the rebuilt view |
| `GatewaySafety.SaveOnlyInserts` | apps/api/store.py:119-169 | saving a run only inserts rows, pending, expiring 30 minutes after the request |
| `GatewaySafety.EveryWriteWasApproved` | apps/api/routes/approvals.py:57-186 | over every request sequence each write invocation follows a commit approving that very action, no later than its expiry |
| `GatewaySafety.DecidedRowsNeverChange` | packages/persistence/repositories.py:618-632 | decided rows are final and were decided in time |
| `GatewaySafety.ExpiredRowsStayPending` | packages/persistence/repositories.py:622-626 | the expired mark is rolled back: such a row stays pending for good |
| `GatewaySafety.LateDecisionChangesNothing` | packages/persistence/repositories.py:622-626 | a late decision is refused and changes nothing |
| `GatewaySafety.SameKeyReplays` | apps/api/routes/approvals.py:85-91 | a repeated decision with its key gets the first reply and changes nothing |
| `GatewaySafety.NotFoundCommitsIff` | apps/api/routes/approvals.py:99-115 | a decision answered not found changed the system if and only if path and row belong to two runs of the tenant and the row was pending and in time; then it is committed and nothing is resumed |
| `GatewayAnswers.RefusedDecisions` | apps/api/routes/approvals.py:57-109 | when a decision is refused, with what, guard by guard; a refusal changes nothing |
| `GatewayAnswers.CommittedDecisions` | apps/api/routes/approvals.py:97-134 | every other decision is committed to its row alone, with decision, approver and time, and answered by its path |
| `GatewayAnswers.SavedRows` | apps/api/store.py:101-169 | an approval gets a row if and only if it has one or the run requests it and the insert is not lost; dates and defaults of new rows |
| `GatewayAnswers.ResumedRuns` | apps/api/routes/approvals.py:137-186 | what a decision does to the run, by whether it is cached, where it stands and what was decided |
| `GatewayAnswers.OtherRequests` | apps/api/routes/runs.py:105-281 | creating, executing, cancelling and restarting, for every system |
| `GatewayOnce.GatewayInvokesAtMostOnce` | apps/api/routes/approvals.py:137-186 | over every request sequence, if what stops a run stops it for good, no action of a run is invoked twice |
| `GatewayOnce.CancelledRunInvokesNothing` | apps/api/store.py:77-86 | over every request sequence and environment, a run cancelled through the gateway invokes nothing afterwards |
| `GatewayRejection.ApprovalAtTheGateInvokes` | apps/api/routes/approvals.py:156-186 | whatever the run's status, rejections and other approvals, an in-time approval at the gate invokes exactly those approved actions, in order, that driver checks and ledger let through |
| `GatewayRejection.RejectedThroughTheGatewayStillActs` | apps/api/routes/approvals.py:158-172 | a concrete run: ticket rejected through the gateway, rollback then approved and invoked |
| `GatewayRejection.RefusedApprovalStands` | apps/api/routes/approvals.py:99-115 | a concrete request sequence: an approval on another run's path is answered not found, stands, and is then already decided on its own path |
| `GatewayMachine.ApprovalGateway.Save` | apps/api/store.py:101-122 | the save loop inserts the missing rows one by one |
| `GatewayMachine.ApprovalGateway.SyncApprovals` | apps/api/routes/approvals.py:144-153 | cached approvals take their rows' decisions |
| `GatewayMachine.ApprovalGateway.MaybeResume` | apps/api/routes/approvals.py:137-186 | sync, then stop, end rejected, or run the graph |
| `GatewayMachine.ApprovalGateway.ExecuteRun` | apps/api/routes/runs.py:167-189 | the worker drives the cached state with a new graph object and saves it |
| `GatewayMachine.ApprovalGateway.CancelRun` | apps/api/routes/runs.py:253-281 | not found for a foreign run; else the cached state is marked cancelled and its flag raised for good |
| `GatewayMachine.ApprovalGateway.DecideRow` | packages/persistence/repositories.py:599-632 | the transaction, with the rolled back expiry |
| `GatewayMachine.ApprovalGateway.Decide` | apps/api/routes/approvals.py:57-134 | the endpoint: validation, remembered replies, commit, resume |
| `GraphMachine.OrchestratorGraph.Emit` | apps/orchestrator/graph.py:543-568 | numbers and appends one event |
| `GraphMachine.OrchestratorGraph.CheckCancel` | apps/orchestrator/graph.py:577-579 | the cancel check on the record |
| `GraphMachine.OrchestratorGraph.CheckBudgets` | apps/orchestrator/graph.py:581-601 | the checks in order, counters before the clock |
| `GraphMachine.OrchestratorGraph.Pay` | apps/orchestrator/graph.py:603-611 | charge first, check, then start the call |
| `GraphMachine.OrchestratorGraph.TryRead` | apps/orchestrator/graph.py:631-656 | the bounded retry loop: only timeouts are retried |
| `GraphMachine.OrchestratorGraph.McpRead` | apps/orchestrator/graph.py:621-665 | a read with its events and breaker bookkeeping |
| `GraphMachine.OrchestratorGraph.DoMcpReads` | apps/orchestrator/graph.py:935-955 | the loop over the four reads |
| `GraphMachine.OrchestratorGraph.Delegate` | apps/orchestrator/graph.py:669-756 | the delegation and every way it degrades or fails |
| `GraphMachine.OrchestratorGraph.DoClassify` | apps/orchestrator/graph.py:887-912 | classification with the clarify exit |
| `GraphMachine.OrchestratorGraph.Weigh` | apps/orchestrator/graph.py:974-990 | confidence capped on conflict, discounted when degraded |
| `GraphMachine.OrchestratorGraph.DoFindings` | apps/orchestrator/graph.py:1004-1074 | normalise, emit, and stop below 0.5 |
| `GraphMachine.OrchestratorGraph.DoPropose` | apps/orchestrator/graph.py:1076-1114 | ticket, and rollback when a finding mentions a deployment |
| `GraphMachine.OrchestratorGraph.DoPolicy` | apps/orchestrator/graph.py:1116-1154 | the policy loop with the denied exit |
| `GraphMachine.OrchestratorGraph.DoApprovalPause` | apps/orchestrator/graph.py:1156-1181 | requests one approval per action and pauses |
| `GraphMachine.OrchestratorGraph.DoExecute` | apps/orchestrator/graph.py:1183-1229 | the execution loop over approved actions |
| `GraphMachine.OrchestratorGraph.DoVerify` | apps/orchestrator/graph.py:1231-1235 | the verifying read |
| `GraphMachine.OrchestratorGraph.DoComplete` | apps/orchestrator/graph.py:1237-1255 | completion keeps an earlier outcome |
| `GraphMachine.OrchestratorGraph.Close` | apps/orchestrator/graph.py:799-840 | the except clauses |
| `GraphMachine.OrchestratorGraph.Run` | apps/orchestrator/graph.py:759-840 | the driver loop |
| `GraphMachine.OrchestratorGraph.ResumeAfterApproval` | apps/orchestrator/graph.py:842-884 | resume after a decision, refusing runs that do not wait |

## Left out

- SQLAlchemy sessions and dialects: a transaction commits or rolls back as a whole; a failed flush drops the attempt's row and the loop goes on, as the module's documentation says.
- GatewayMachine.ApprovalGateway.CreateRun: run ids are fresh; the idempotency key of run creation is not modelled.
- `append_event` with an explicit sequence: it can leave gaps and has no production caller.
- HTTP, server-sent event framing, EventSource reconnect details, named or malformed envelopes, the hook's `replay` callback, fetch back-off, React state batching.
- Tenancy beyond "this run belongs to this tenant", identity, scopes, headers, allowlist regular expressions, JSON sizes, hashes and uuids: a boolean or an opaque token each.
- Redaction.RedactIsIdempotent: case is folded for ASCII letters only, and secret-shaped strings are an uninterpreted test.
- Budget.CheckBudgets: money is whole cents, so a cost limit with a fraction of a cent stands for its floor; the 1e-9 slack and float rounding are not modelled.
- Budget.LedgerMeaning: token counters exist but are never charged, as in the code.
- RateLimit.WindowBound: exact reals in place of floats.
- Graph.Round2: rounds ties up, where Python rounds half to even on binary floats.
- GraphMachine.OrchestratorGraph.Weigh: findings are values in a list, so the code's update of shared dictionaries through aliases is not captured.
- EventReader.MapBatch: the final in-place sort is a call of the sorting function.
- GraphMachine.OrchestratorGraph.Judge: policy answers are allowed or not; other keys of a decision are dropped.
- GatewayMachine.ApprovalGateway: cached run states are values, and the graph run inside a request is the function of module Graph, not a second object; the Run row's own status column is not part of this model.
- GatewaySafety.EveryWriteWasApproved: requests are atomic; two threads resuming one run at once are not modelled, and store failures inside a graph step are not either, except lost approval inserts.
- CachedView.FindingsAgree: assumes that every graph event was appended; a swallowed append failure would lose its finding.
- Executor.UngatedWriteRunsIff: how the input schema parses a raw dry_run is part of the request, not computed from it.
- Executor.AuditIsComplete: speaks of the in-memory log of one process; the best-effort durable copy is not part of this model.
- Free text that ends in notes only (unresolved questions, plan steps, resource records, reasons, approver names in runs), tracing, metrics and the best-effort specialist cancel.
- A tool client that itself raises the graph's control exceptions, and replies that fail to serialise.
- BudgetTracker, `call_with_retry`, the LiteLLM runtime, the specialist's own text building, mock handlers, policy tables, schema export and the tool catalog's constants: they would add weaker or constant members.
