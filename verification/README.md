# A verified model of the adaptive-learning agent

This project models the agent harness of the learning platform and the deterministic services around
it, and proves what they guarantee. `dafny verify dfyconfig.toml` checks everything.

## The system

**Crash and resume** (`Lease`, `Store`, `Tools`, `Runner`, `Protocol*`, `Database`, `Harness`,
`HarnessRuns`, `AgentRuns`, `ToolRegistry`, `ToolEndings`, `RunnerLaws`). One agent run has
a row with a fencing token, a table of checkpoints by step, a ledger of write-tool executions and a table of
proposals. Any number of workers acquire leases, load the newest checkpoint, drive the phase machine READY,
TOOL_PENDING, FINAL_PENDING, TERMINATED, and may crash, stall, lose the lease or come back at any point. Every
database transaction is one atomic step; what the model, the tools, the reviewers and the clocks do is arbitrary.
`Protocol.dfy` is that state machine, `ProtocolInvariant.dfy` its inductive invariant, `ProtocolTheorems.dfy` the
results over all runs. `Harness.dfy` holds the executor's retry loop and the runner's main loop as programs over a
database that the rest of the world changes between any two transactions; they are proved to follow the automaton
of `Tools.dfy` and `Runner.dfy`, and `AgentRuns.dfy` adds the job execution around them. `HarnessRuns.dfy` proves
that such a path, with other events in its gaps, is a run of the state machine, so that the results over all runs
hold of what the loops return. `ToolRegistry.dfy` shows that the learning tools meet the assumptions of these
results. `ProtocolHistory.dfy` keeps a chronicle of what a run has really done and reads its counters, observations
and decision off it; `RunnerLaws.dfy` and `ToolEndings.dfy` say exactly when the runner and the executor go on, and
how undisturbed runs end. `Schemas.dfy` and `ProtocolCheckpoints.dfy` add what a checkpoint looks like when it is written and read.

**Model router** (`ModelGateway`, `QwenGateway`, `ModelRouter`, `RouterAnswers`). Retry, one repair request, recursive fallback from
the flash to the plus model and a second opinion on low confidence, under a call budget, with exact accounting of
requests.

**Exam assembly** (`Rounding`, `OrderedCounts`, `Apportionment`, `SpecializedPaper`, `Exam*`). Counts by largest
remainders, slots, greedy choice of questions, the validator, and the second assembly after missing questions
have been written and reviewed. Ratios and weights are exact reals.

**Jobs and adjustments** (`Jobs`, `JobWorkers`, `JobLaws`, `MinorAdjustments`, `AdjustmentStore`). Claims, retries,
reconciliation and late reports of background jobs; minor adjustments applied to plan tasks automatically or by
approval.

**Chapters and planning** (`Chapters`, `LearningWeek`, `QuestionWeek`, `Planner`, `PlannerLaws`). The traversal of a chapter without
visited set, and the greedy packing of a week.

Code that changes state step by step is written as classes and methods with loops, each proved equal to a
function whose properties are then proved as lemmas, or against its property outright.

## What the proofs found

- `renew` reads the clock before it waits for the row lock, so a delayed renewal can bring an expired token back
  (`LeaseSpec.StaleClockRevivesToken`); it comes back in no other way (`LeaseSpec.RevivedIffStaleRenewal`), so with
  ordered clock readings of its own renewals a failed token stays dead (`LeaseSpec.FailedTokenStaysDead`).
- A structured-output error leaves out the failed requests of the same call, and an error of the second opinion
  leaves out the flash requests (`GatewaySpec.DecideAccounts` gives the exact condition for every outcome).
- One decision can send one request more than its budget (`GatewaySpec.DecideCallBudget` says exactly when).
- A total score that does not split evenly over the questions keeps a specialized or full paper in review for ever,
  asking each time for one more question (`ExamAssembly.UnevenScoreNeverPublishes`, `ExamAssembly.WantedAssembly`).
- A delivery that reaches a worker with a clock behind the dispatcher's is dropped: a dispatched job then waits for
  ever, unless another delivery comes after its retry time (`JobSpec.LostIffDeliveredEarly`).
- A job that has ended is reopened by a late failure report, and by nothing else (`JobSpec.EndedUnlessReported`).
- An approved adjustment without evidence references is not settled: it goes back to waiting for a decision
  (`AdjustmentSpec.ApprovalSettlesIffReferenced`).
- A learning candidate shorter than fifteen minutes can be left out although it fits
  (`PlannerSpec.MaximalIffLongEnough`).
- `register` accepts a read tool that declares an idempotent write; the protocol's results need that there is none
  (`ToolRegistrySpec.RegisterAcceptsReadWrites`, `ToolRegistrySpec.RegisteredIffWritesAreProposals`).
- `build_week` can ask a question twice in one task when two candidates offer it for the same topic
  (`QuestionPlannerSpec.NeverTwiceIffUniqueOffers`).

## Model

| member | source | states |
|---|---|---|
| LeaseSpec.TokensIssuedOnce | app/harness/lease.py:54-78 | Over any history of acquisitions, renewals, releases, status changes and fenced writes, with arbitrary clock readings, the issued tokens strictly increase and lie above the row's earlier token |
| LeaseSpec.StampsNeverDecrease | app/infrastructure/adapters/harness_store.py:46-71 | The tokens stamped by the fenced writes that went through, in order, never decrease |
| LeaseSpec.RevivedIffStaleRenewal | app/harness/lease.py:80-95 | Over every history with arbitrary clocks, an issued token that failed the fence passes it again at some point exactly when a renewal of it, by the holder and not cancelled, finds the lease still running by its own clock and lasts beyond the failure |
| LeaseSpec.StepRevives | app/harness/lease.py:80-95 | One operation brings a failed token back exactly as such a renewal, and then it read a clock from before the failure |
| LeaseSpec.FailedTokenStaysDead | app/harness/lease.py:147-166 | A token that fails the fence once (expired, released or superseded) fails it for ever when its own renewals read no clock from before the failure; nothing is asked of acquisitions or of other tokens |
| LeaseSpec.StaleClockRevivesToken | app/harness/lease.py:80-95 | It happens to every uncancelled lease: a renewal whose reading was taken just before the expiry, and which waited for the row lock, brings the expired token back |
| LeaseSpec.OneTokenPasses | app/harness/lease.py:160-166 | Two workers that pass the fence on one row, each with its own clock, hold the same token |
| LeaseSpec.AcquiredUnlessLiveElsewhere | app/harness/lease.py:54-78 | An uncancelled run is refused with LEASE_UNAVAILABLE exactly when some other named owner still passes the fence with the row's token; otherwise it is granted the next token under the new owner until the clock plus the lease period |
| LeaseSpec.LiveUnlessEnded | app/harness/lease.py:54-111 | One operation ends a live lease before its time exactly if it is its release, a granted acquisition, or its own renewal for a shorter time |
| LeaseSpec.RowOfGrant | app/harness/lease.py:54-111 | Over every history, between two grants the row is the holder's until the expiry as last renewed, or nobody's once it was released |
| LeaseSpec.NextGrantWaits | app/harness/lease.py:54-78 | Over every history: after a grant to one worker, the next grant to another comes exactly if the earlier lease, as last renewed, is over by the later clock, or was released in between |
| DatabaseAdapters.RunLeaseManager.Acquire | app/harness/lease.py:54-78 | The row after an acquisition is the one the lease transaction specifies, cancelled and held runs are refused with the right error and left alone, and the manager remembers exactly the new token |
| DatabaseAdapters.RunLeaseManager.Renew | app/harness/lease.py:80-95 | Only the expiry moves, only for the holder, and a cancel request is reported instead |
| DatabaseAdapters.RunLeaseManager.Release | app/harness/lease.py:97-111 | Only the holder's own lease is cleared; the token stays |
| DatabaseAdapters.DatabaseCheckpointStore.Save | app/infrastructure/adapters/harness_store.py:39-71 | A save behind the fence upserts the row of its step and becomes the last saved state; any other save changes nothing |
| DatabaseAdapters.DatabaseCheckpointStore.LoadLatest | app/infrastructure/adapters/harness_store.py:75-94 | Behind the fence: nothing, an error for a row with the wrong version, digest or run, or the state of the highest step marked as resumed |
| DatabaseAdapters.DatabaseToolExecutionLedger.Begin | app/infrastructure/adapters/tool_ledger.py:34-82 | Opens a row only when the key has none; otherwise reports the row, or a digest mismatch, and writes nothing |
| DatabaseAdapters.DatabaseToolExecutionLedger.Update | app/infrastructure/adapters/tool_ledger.py:98-122 | Rewrites status, result, error and token of the row and keeps its digest, only behind the fence |
| DatabaseAdapters.ProposalTools.Propose | app/infrastructure/adapters/learning_tools.py:139-223 | Refused without the lease; an existing row of the key is kept and returned; a new one needs evidence, all of it the student's own; so at most one row per key |
| Keys.BoundKeyInjective | app/infrastructure/adapters/model_gateway.py:226-237 | Different steps or different tools of one run are bound to different idempotency keys |
| ProtocolInvariant.ReachableInv | app/harness/runner.py:134-396 | The protocol invariant (rows, checkpoint table, holder's position, reports of completion) holds after every interleaving of worker steps, crashes, lease changes, reviews and cancellations |
| ProtocolTheorems.TableIsLastSavedRegister | app/infrastructure/adapters/harness_store.py:39-94 | The per-step checkpoint table refines one register: loading the highest step returns the state saved last by any worker |
| ProtocolTheorems.CheckpointsAreIntact | app/infrastructure/adapters/harness_store.py:75-94 | In every reachable system the latest checkpoint passes the checks of version, digest and run identity, and has no decision beside a pending call |
| ProtocolTheorems.OnlyTheHolderWrites | app/harness/lease.py:147-166 | Any event that changes a checkpoint, a ledger row or the set of proposals is a step of the worker with the newest token |
| ProtocolTheorems.AtMostOneProposal | app/infrastructure/adapters/learning_tools.py:139-223 | When every write tool is terminal, a run has at most one proposal after every interleaving; in general at most one per step |
| ProtocolTheorems.SucceededRowsAreFinal | app/harness/tools.py:207-232 | A SUCCEEDED ledger row, and the id of a proposal, never change again over any continuation |
| ProtocolTheorems.EveryExecutionReturnsTheSameProposal | app/harness/tools.py:206-283 | Whichever way a write call returns (first attempt, retry, reconciliation, replay), the worker holds the newest token and the result names the one proposal of the call's key |
| ProtocolTheorems.HandlerNeverRunsAfterSuccess | app/harness/tools.py:207-218 | With a SUCCEEDED row the executor is still before its ledger entry, and replays the stored result without touching the database |
| ProtocolTheorems.ProposalsAreWrittenAhead | app/harness/runner.py:213-218 | A proposal row appears only while the newest checkpoint holds the same call and observations, under the key bound at that step, and with its ledger row STARTED for those arguments |
| ProtocolTheorems.DigestMismatchUnreachable | app/infrastructure/adapters/tool_ledger.py:55-65 | No reachable worker finds its ledger row under another argument digest |
| ProtocolTheorems.RunSettles | app/application/agent_runs.py:207-225 | Once the last saved state has a pending decision or has ended without a reopening error, every continuation keeps its counters and its decision |
| ProtocolTheorems.DecisionIsStable | app/harness/runner.py:368-383 | After a FINAL_PENDING or COMPLETED checkpoint, every completion reported later has that decision, confidence and reasons, and no further step, model call or tool call was counted |
| ProtocolTheorems.CompletedRunsAreWithinBudget | app/harness/budget.py:26-55 | Over any sequence of crashes and resumes, every reported completion is within the step, model-call, repair, tool-call and token limits |
| ProtocolTheorems.ToolBudgetUnreachable | app/harness/budget.py:33-36 | With at least as many tool calls allowed as steps, no run ends on TOOL_BUDGET_EXCEEDED |
| ProtocolHistory.PathSpends | app/harness/runner.py:187-191 | Over every path of the loop, the counters at the end are those at the start plus the sums over the path's replies, failures and executed calls |
| ProtocolHistory.SavedStateIsWhatWasDone | app/harness/runner.py:134-366 | Over every run, across crashes and resumes: the counters of the last saved state are the sums over the replies, failures and tool calls that led to it, its observations are the first one and one per executed call in order, and its decision is the one the last of them made |
| ProtocolHistory.SpendingIsWithinBudget | app/harness/budget.py:26-55 | What a completed run has spent (steps, model calls, repairs, tool calls, tokens, as sums over its replies) is within every limit, and it returns the decision of its last reply or terminal call |
| RunnerLaws.BudgetStopsAreEarned | app/harness/budget.py:26-55 | Over every run: a saved run that was stopped for a budget had spent it, in terms of the same sums: all its steps or tool calls, at least its model calls, more than its repairs, or more than some token limit |
| RunnerLaws.ModelIsAskedIff | app/harness/runner.py:157-158 | The model is asked exactly while the worker holds the live lease, no cancellation is requested, and time, tokens, steps and model calls are left |
| RunnerLaws.ToolIsEnteredIff | app/harness/runner.py:257-275 | The executor is entered exactly while the lease is held, no cancellation is requested, time, tokens and tool calls are left, and the call is registered, permitted and, for a write, keyed and valid |
| RunnerLaws.ReplyDecidesIff | app/harness/runner.py:187-203 | A reply becomes the decision exactly if it finishes with one and without a call, in time and with its cost within every limit |
| RunnerLaws.ReplyCallsIff | app/harness/runner.py:187-218 | A reply becomes a pending call exactly if it asks for one in time and within every limit, tool calls are left and the call closes no loop |
| RunnerLaws.CancelledIffRequested | app/harness/lease.py:113-122 | A run ends as cancelled exactly where a check by the holder of the token meets a request to cancel |
| RunnerLaws.LoadGoesOn | app/application/agent_runs.py:91-150 | A worker that loads behind the fence goes on where the last save left the run: at the model with nothing in flight, at the same pending call, at the completion of the same decision, or at the same end |
| RunnerLaws.CallIsSavedThenEntered | app/harness/runner.py:213-218 | Undisturbed, a call is saved as pending before its tool is entered |
| RunnerLaws.ObservedCallGoesOn | app/harness/runner.py:275-318 | Undisturbed, a tool call that does not end the run adds its observation, is saved without the call and leads back to the model, or to a stalled end exactly when the observation repeats the last one |
| RunnerLaws.TerminalCallCompletes | app/harness/runner.py:295-383 | Undisturbed, a call of a terminal tool completes the run with that tool's decision, saved |
| RunnerLaws.DecisionIsSavedAndCompleted | app/harness/runner.py:203-383 | Undisturbed, a decision is saved as pending, then as completed, and reported |
| RunnerLaws.ReopenedIffPassing | app/application/agent_runs.py:207-225 | A failed state can be taken up again exactly after a tool's timeout, rate limit or upstream error, an unknown write outcome, or an unavailable model |
| ProtocolCheckpoints.EverySavePasses | app/harness/schemas.py:104-109 | At every save point the lease holder's state passes the phase and action validators, and so does the last saved state |
| ProtocolCheckpoints.CheckpointsSurviveSerialization | app/harness/schemas.py:135-201 | Over every run, what loading returns is exactly what deserializing the payload of the last save gives |
| Harness.ToolExecutor.OpenRow | app/harness/tools.py:206-232 | The part before the first attempt ends in a replay, a reconciled success, a refusal, an unexpected error of the ledger or the reconciler, or a STARTED row, each on a path of the executor automaton under arbitrary interference |
| Harness.ToolExecutor.HandleError | app/harness/tools.py:252-282 | After a failed attempt the row is marked, an effect that happened is found, and the loop goes on only for a transient error within the attempts; an error of the ledger or the reconciler in between ends the execution |
| Harness.ToolExecutor.Execute | app/harness/tools.py:196-283 | The retry loop, with the database changed arbitrarily between its transactions, performs a path of the executor automaton, complete unless an unexpected error of the ledger or the reconciler cuts it short, or refuses before the ledger is touched |
| ToolEndings.CalledAgainAfterPassingErrorsOnly | app/harness/tools.py:234-282 | Over every path of the executor: the handler is called at most max_attempts times, every time but the first after a timeout, rate limit, server or network error, and such an error is raised only when the attempts or the retry time are used up |
| ToolEndings.ReturnedIsOnRecord | app/harness/tools.py:196-269 | Over every path: a write that returns has a SUCCEEDED ledger row with exactly the returned result |
| ToolEndings.RaisedIsOnRecord | app/harness/tools.py:252-283 | Over every path: a write whose handler was called and that raises leaves FAILED with the error's code, or UNKNOWN for an error that may pass, and then the reconciler found nothing; otherwise the row was another call's, could not be reconciled, or no attempt is allowed |
| ToolEndings.OpensByTheRow | app/harness/tools.py:206-232 | The entry by the row of the key: a new STARTED row, a refusal exactly for other arguments, a replay exactly of a finished row, or the reconciler |
| ToolEndings.CleanWriteReturns | app/harness/tools.py:196-251 | The first execution of a key, if nothing goes wrong, adds one proposal, returns its id and status, and leaves a SUCCEEDED row with that result |
| ToolEndings.CommittedWriteIsFound | app/harness/tools.py:207-223 | A row left unfinished after its proposal was committed: the next execution finishes it with that proposal, replayed, without calling the handler |
| ToolEndings.UncommittedWriteIsStartedOver | app/harness/tools.py:219-232 | A row left before a proposal of the tool was committed is started over and its handler called |
| ToolEndings.LostAnswerIsRecovered | app/harness/tools.py:252-264 | A handler that committed before an error that may pass: the execution finds the proposal and returns it all the same |
| ToolEndings.FailedCallIsRetried | app/harness/tools.py:252-282 | Without an effect, and with attempts and time left, such an error leads to the next call of the handler with the row STARTED again |
| ToolEndings.EvidenceIsWhatWasSeen | app/harness/tools.py:302-312 | The evidence bound to a call holds each task or attempt that an observation names, and no other, once |
| ToolEndings.ProposalsAreGrounded | app/infrastructure/adapters/learning_tools.py:139-223 | In every reachable system a new proposal is its pending call's: its tool and initial status, confidence in [0, 1], factor in [0.75, 1.25], one to sixteen reasons, a permitted tool, and evidence that some observation names |
| Harness.AgentRunner.ExecutePendingTool | app/harness/runner.py:257-318 | Ends the run, or leaves the saved state after the tool, on a path of the worker automaton, whether or not the trace row of the call could be written |
| Harness.AgentRunner.Complete | app/harness/runner.py:368-383 | Completes with the pending decision only after the completed state was saved |
| Harness.AgentRunner.Run | app/harness/runner.py:134-255 | For every model, tool and interference the loop terminates (by the steps left), and everything it did is a path of the worker automaton from the state it was given |
| Harness.LiftPath | app/harness/runner.py:275-275 | A path of the executor is a stretch of the path of the runner that called it |
| HarnessRuns.LoopIsARun | app/harness/runner.py:134-255 | When the interference that a program meets between its transactions is what other events do, its path is a run of the whole system that takes its worker from the path's start to its end |
| HarnessRuns.JobObeysTheProtocol | app/application/agent_runs.py:67-205 | A job execution in a reachable system, from the acquisition on, leaves it reachable; a completion it returns was saved with that decision and is within every limit, and the proposals obey the protocol's bounds |
| ToolRegistrySpec.ToolRegistry.Register | app/harness/tools.py:143-157 | Refuses duplicates, proposal tools without prefix, side effect or idempotency, non-idempotent writes and terminal read tools, in this order, and adds every other definition |
| ToolRegistrySpec.RegisteredIffWritesAreProposals | app/harness/tools.py:143-157 | Registered tools meet what the protocol's theorems ask for exactly when every enabled write is a proposal tool |
| ToolRegistrySpec.LearningRegistryIsRegistered | app/infrastructure/adapters/learning_tools.py:248-317 | The learning registry, under any feature flags, meets it: writes are proposals, end the run and can be reconciled |
| ToolRegistrySpec.BuildLearningRegistry | app/infrastructure/adapters/learning_tools.py:248-317 | None of the six tools is refused |
| VerdictSpec.RetriedIffReopenable | app/application/agent_runs.py:207-249 | Over every run, a worker's result makes its job wait for a retry exactly when the state it ended in can be reopened |
| VerdictSpec.ReopeningKeepsTheCall | app/application/agent_runs.py:207-225 | A reopened state keeps its counters, takes up a pending call with the same observations, or starts over at the model, and satisfies the invariant again |
| AgentRuns.StatusAgreesWithVerdict | app/application/agent_runs.py:228-280 | Over every run, a job succeeds exactly where its run is not marked as failed, and the status names the reason |
| AgentRuns.AgentDiagnosisService.PrepareRetryableState | app/application/agent_runs.py:207-225 | The field updates reopen exactly the terminated states with a retryable code |
| AgentRuns.AgentDiagnosisService.RunHeld | app/application/agent_runs.py:91-196 | Loading, checking, reopening, counting the resume and running under one lease is, hop by hop, a path of the worker automaton from its load step to its end, and the verdict follows from that end |
| AgentRuns.AgentDiagnosisService.ExecuteJob | app/application/agent_runs.py:67-205 | The same for the whole job execution: the run is found or created, and the path starts where the acquired lease puts the worker |
| AgentRuns.AgentDiagnosisService.FindOrCreateRun | app/application/agent_runs.py:69-84 | A run without a row gets one, running and without a lease; an existing row is left alone |
| AgentRuns.AgentDiagnosisService.CountResume | app/application/agent_runs.py:130-135 | A resume is counted exactly when the owner still passes the fence |
| AgentRuns.AgentDiagnosisService.FinalizeRun | app/application/agent_runs.py:251-278 | Behind the fence, and only there, the status follows from how the run ended and its counters and reason are copied |
| StallDetection.StallDetector.RecordAction | app/harness/termination.py:26-36 | The bounded list after the call and the alarm it raises |
| StallDetection.WindowLosesNoAlarm | app/harness/termination.py:23-49 | Eight remembered fingerprints raise exactly the alarms of a detector that keeps the whole history, for actions and for observations |
| StallDetection.QuietMeansNoLoop | app/harness/termination.py:26-36 | A stream of actions raises no alarm exactly when it has no immediate repeat xx and no block xyxy with x different from y |
| StallDetection.AlarmsSayWhatHappened | app/harness/termination.py:23-49 | The alarm after each action: the same action again, two actions in turn for the second time, or none; after each observation: the same result again, or none |
| SchemaSpec.ReasonTextInjective | app/harness/contracts.py:9-29 | No two termination reasons share their text |
| SchemaSpec.BudgetCodesAreCanonical | app/harness/errors.py:79-83 | The code of a budget error is determined by its text |
| PayloadSpec.ActionRoundTrip | app/harness/schemas.py:212-239 | Every model action, with or without a tool call, survives being stored and read |
| PayloadSpec.CheckpointRoundTrip | app/harness/schemas.py:135-201 | Exactly the states the validators accept serialize, and deserializing gives the state back with resumed set |
| PayloadSpec.PayloadIdentifiesTheState | app/harness/schemas.py:135-165 | Different states have different payloads |
| PayloadSpec.LoadedStatesPersist | app/harness/schemas.py:168-201 | Any state that loading accepts from any payload serializes again and loads as itself |
| QwenSpec.QwenReports | app/infrastructure/adapters/model_gateway.py:31-71 | A gateway call sends one request, or two when two calls are left, and reports exactly these requests, their token and latency sums and the repairs that came back |
| QwenSpec.RepairErrorDecidesTheRetry | app/infrastructure/adapters/model_gateway.py:37-71 | A call fails after two requests exactly when a malformed answer was followed by a failed repair request, whose error alone decides whether it is retryable |
| GatewaySpec.PlusTells | app/infrastructure/adapters/model_gateway.py:390-472 | Through retries of the plus model: results and unavailability list exactly the requests sent, in order; a structured error does so exactly when none of them failed |
| GatewaySpec.FlashTells | app/infrastructure/adapters/model_gateway.py:390-472 | The same for the flash call with its recursive fallback to plus |
| GatewaySpec.DecideAccounts | app/infrastructure/adapters/model_gateway.py:373-388 | Every result of `decide` accounts for every request; an unavailability does so exactly when the flash model had not answered before; a structured-output error exactly when, besides, no request failed |
| GatewaySpec.DecideCallBudget | app/infrastructure/adapters/model_gateway.py:390-472 | One decision sends at most one request more than remained, and that one exactly when its last plus call had two calls left and lost both, the second retryably |
| RouterAnswers.LastAnswerIsReturned | app/infrastructure/adapters/model_gateway.py:373-495 | Whenever the router over the network returns a result, its action is the bound message of the last request sent and its model that request's, through retry, repair, fallback and second opinion |
| RouterAnswers.RetriedIffPassing | app/infrastructure/adapters/model_gateway.py:390-483 | With two calls left, a failed first request to the plus model is followed by another one exactly when its error may pass |
| RouterAnswers.SecondOpinionIffUnsure | app/infrastructure/adapters/model_gateway.py:373-388 | EXPLAIN and SUMMARIZE go to the flash model first, every other goal to plus; after a readable answer plus is asked too exactly if it was flash's, with a confidence below 0.75, and a call is left; otherwise that answer is returned |
| RouterAnswers.FallbackIfCallLeft | app/infrastructure/adapters/model_gateway.py:390-472 | After a failed flash request the plus model is asked exactly if a call is left |
| QwenSpec.StructuredErrorForgetsTheFailedRequest | app/infrastructure/adapters/model_gateway.py:411-434 | A structured error after a failed attempt carries only its own request |
| QwenSpec.SecondOpinionForgetsTheFlashRequest | app/infrastructure/adapters/model_gateway.py:378-387 | When the second opinion is unavailable the error names no request, although one was sent and answered |
| QwenSpec.OneRequestTooMany | app/infrastructure/adapters/model_gateway.py:404-420 | With two calls left three requests can go out |
| ModelRouting.QwenModelGateway.Decide | app/infrastructure/adapters/model_gateway.py:31-71 | The gateway over a growing request log does what the accounted function says, request by request |
| ModelRouting.ModelRouter.CallPlusModel | app/infrastructure/adapters/model_gateway.py:390-472 | The retry loop with its list of failed attempts equals the recursive definition the accounting is proved for |
| ModelRouting.ModelRouter.Decide | app/infrastructure/adapters/model_gateway.py:373-388 | The router's decision, with the log it leaves, is the accounted one |
| ModelRouting.CircuitBreaker.Failure | app/infrastructure/adapters/model_gateway.py:353-359 | The pruned window opens the breaker exactly when, of all failures since the last clear, at least the threshold are no older than the window |
| ModelRouting.CircuitBreaker.AssertAvailable | app/infrastructure/adapters/model_gateway.py:341-347 | Calls are refused exactly during the cooldown; the first one after it starts with an empty history |
| Apportionment.LargerShareNeverFewer | app/application/mock_exams.py:311-330 | A larger exact share never gets fewer questions; with equal shares the earlier topic gets at most one more |
| Apportionment.SharesFollowAccuracy | app/application/mock_exams.py:314-318 | The shares sum to the total and are in proportion to four less three times the accuracy, or to one for a topic never attempted |
| Apportionment.WeakerTopicNeverFewer | app/application/mock_exams.py:314-316 | A topic answered less accurately, or with errors where the other was never attempted, never gets fewer questions |
| Apportionment.HamiltonIsUnique | app/application/mock_exams.py:318-327 | The shares determine the allocation: floor or floor plus one, remainders served in order |
| Apportionment.HamiltonIsOptimal | app/application/mock_exams.py:311-330 | No integer allocation of the same total deviates less, in sum, from the exact shares |
| Apportionment.SpecializedTargetCounts | app/application/mock_exams.py:311-330 | The loops compute Hamilton's allocation, the counts sum exactly to the total, and the dictionary holds each topic's count; without topics it is empty |
| SpecializedPaper.SpecializedCounts | app/application/mock_exams.py:186-211 | Counts are nonnegative and sum to the paper's length; a target t with -4 <= 10 t - 6 count <= 4 is shared in the chapter by Hamilton's method; if the profile names a topic outside, the chapter gets exactly these shares, t in all, and each outside topic its occurrences in the profile per full round of the rest and those of the begun round; otherwise the rest goes round the chapter |
| SpecializedPaper.TargetIsThreeFifths | app/application/mock_exams.py:196-196 | The target is the one integer within four tenths of three fifths of the questions |
| ExamSlots.SlotsAreExact | app/application/mock_exams.py:333-342 | Round-robin expansion emits each key exactly as often as its positive count |
| ExamSlots.PrefixesAreBalanced | app/application/mock_exams.py:333-342 | In every prefix no key is more than one ahead of a key still owed a slot, and not at all ahead of an earlier one |
| ExamSlots.ExpandBalancedCounts | app/application/mock_exams.py:333-342 | The nested loops over the remaining counts produce that expansion |
| ExamSlots.BlocksAreContiguous | app/application/mock_exams.py:265-265 | The knowledge slots of one topic lie next to each other |
| ExamSlots.BlocksFollowTheKeys | app/application/mock_exams.py:265-265 | The knowledge slots come in the order of the keys |
| ExamSlots.SlotsLength | app/application/mock_exams.py:265-267 | For nonnegative counts of the same sum both slot lists have that length, so the strict zip succeeds |
| ExamSelection.BestIsBest | app/application/mock_exams.py:277-296 | A candidate is found exactly when one is left; it is a generated one only when no real one is, and has the first code of its kind |
| ExamSelection.FilledIffAvailable | app/application/mock_exams.py:239-296 | A slot is filled exactly if some question of its topic and difficulty is neither attempted nor chosen for an earlier slot |
| ExamSelection.ChosenAreFresh | app/application/mock_exams.py:262-274 | No question is chosen twice and none that was attempted |
| ExamSelection.FilledAndMissing | app/application/mock_exams.py:429-442 | Every slot, counted with multiplicity, is either filled by a fitting question or missing |
| ExamSelection.MissingPairs | app/application/mock_exams.py:429-442 | Each pair is listed as often as the difference of the two counters says |
| ExamSelection.MissingAreUnfilled | app/application/mock_exams.py:429-442 | The missing pairs of a selection are exactly its unfilled slots |
| ExamSelection.SelectQuestions | app/application/mock_exams.py:239-274 | The loop with its used set fills the slots greedily; slot lists of different lengths are an error |
| ExamValidation.MockExamValidator.Validate | app/domain/exams/validator.py:40-70 | One complaint per failed requirement in order of the checks, and valid exactly for papers that meet them all |
| ExamValidation.MockExamValidator.ValidateDistribution | app/domain/exams/validator.py:73-85 | One complaint exactly when some key is off by more than the tolerance, despite the early return |
| ExamAssembly.SelectorAndValidatorAgree | app/application/mock_exams.py:344-373 | For nonnegative counts of the right sum the validator accepts a selection exactly when every slot was filled, the score splits evenly and every chosen question has an answer |
| ExamAssembly.ValidIffWantedAndComplete | app/application/mock_exams.py:64-116 | For any two dictionaries of counts, negative or of any sum, the paper (of fewer than a thousand questions) is valid exactly when both are nonnegative and sum to its length, every slot was filled, the score splits evenly and every chosen question has an answer |
| ExamAssembly.UnevenScoreNeverPublishes | app/application/mock_exams.py:344-373 | A total score that does not split evenly keeps the paper waiting whatever questions exist |
| ExamReview.OldQuestionsComeFirst | app/application/mock_exams.py:262-274 | An old question used by the second assembly was used by the first one no later |
| ExamReview.ReviewCompletesThePaper | app/application/mock_exams.py:644-665 | After one published question per missing pair the next assembly fills every slot, even though it may choose differently and old questions may belong to several topics |
| ExamAssembly.ReviewPublishesThePaper | app/application/mock_exams.py:64-116 | That next assembly is then valid exactly when the score splits evenly and the chosen questions have answers |
| ExamAssembly.Assemble | app/application/mock_exams.py:81-116 | For any counts: the error of the strict zip, the published selection exactly when it is valid, a request for exactly the lacking pairs, one pair when none is lacking, or the error of an empty dictionary |
| ExamAssembly.WantedAssembly | app/application/mock_exams.py:64-116 | For counts of the right sum that means: published in exactly the complete, even and answered case; otherwise the request names the unfilled slots, or one pair when none is unfilled |
| JobSpec.ClaimedAtMostMaxAttempts | app/workers/tasks.py:50-68 | Under any interleaving of dispatch, late or duplicate delivery, finish, late failure report, cancel and reconciliation a job is claimed at most max_attempts times, and fewer while it waits |
| JobSpec.DeliveryClaimsIffDue | app/workers/tasks.py:57-68 | Over every run, a delivery claims a waiting job exactly when the job is queued or its retry time has come; a dispatched one has a delivery under its next attempt that was sent when it was due |
| JobSpec.LostIffDeliveredEarly | app/workers/dispatcher.py:23-38 | Over every run and any further scheduling, a waiting job that was dispatched stays waiting for ever exactly when every delivery that still arrives reads a clock before its retry time |
| JobSpec.SettledProposalStays | app/workers/tasks.py:238-256 | A proposal that was applied, or failed to apply, keeps that status over any run |
| JobSpec.ApprovedUntilClaimed | app/workers/tasks.py:238-256 | An approved proposal stays approved until the first claim and from then on is being applied, applied or failed |
| JobSpec.EndedUnlessReported | app/workers/tasks.py:111-134 | A job that has ended stays ended over a run exactly when its attempts are used up or no transient failure is reported |
| JobSpec.ZombieFailureReopensTheJob | app/workers/tasks.py:111-134 | It happens: such a report by an earlier worker makes any ended job with attempts left claimable again |
| JobLaws.RetriedAfterTheDelay | app/workers/tasks.py:111-134 | A transient failure with attempts left: until the delay has passed no dispatch, delivery or reconciliation moves the job, and from then on it is dispatched and its next attempt started |
| JobLaws.TakenBackIffSlow | app/workers/tasks.py:169-209 | An attempt is taken back exactly when it has run longer than the limit and, for an agent job, its run is not leased; for any other, also for 660 seconds; it is then due at once, or dead after the last attempt |
| JobLaws.FirstDecisionSettles | app/workers/tasks.py:238-256 | Over every run the first success, unretried failure or exhausted reconciliation settles an approved proposal as applied or failed, whatever is reported afterwards |
| JobLaws.DeadWhenUsedUp | app/workers/tasks.py:111-134 | Over every run a job is dead only with all attempts made, failed only after a report that was not transient, and succeeded only after a finish |
| JobWorkers.JobTable.DispatchOnce | app/workers/dispatcher.py:16-38 | Marks and enqueues the first hundred dispatchable rows, each once, and no other |
| JobWorkers.DispatchIsOnce | app/workers/dispatcher.py:23-38 | A dispatched row is not dispatchable again, the limit holds, and below the limit nothing dispatchable is left |
| JobLaws.DispatchesTheFirst | app/workers/dispatcher.py:16-38 | The dispatcher sends exactly the first hundred rows that are waiting, available and undispatched, under their next attempt's number, stamps them, and leaves the others as they were |
| JobWorkers.JobTable.ClaimJob | app/workers/tasks.py:50-68 | The first transaction claims exactly the waiting, due jobs and marks an approved proposal |
| JobWorkers.JobTable.HandleJobFailure | app/workers/tasks.py:111-134 | Retry, dead letter or failure with the proposal's mark, on that row only |
| JobWorkers.JobTable.ReconcileStaleJobs | app/workers/tasks.py:169-209 | Every stale row, and no other, is retried or given up, and the count says how many |
| AdjustmentSpec.ApplyIsGuarded | app/infrastructure/adapters/learning_tools.py:347-458 | An application changes exactly one task and leaves its day within capacity, or changes nothing and does not mark the proposal as applied |
| AdjustmentSpec.DecisionDoesAsTold | app/application/agent_runs.py:438-487 | A decision in its cases: nothing on a settled proposal, expiry, rejection without a change, expiry of an approval on stale evidence, application of a fair approval |
| AdjustmentSpec.StatusWasCaused | app/application/agent_runs.py:438-487 | Over every run, from the events alone: applied or failed to apply only by a fair approval, rejected only by a rejection, committed automatically only with references and a confidence of at least 0.75, expired only when overdue or approved on stale evidence |
| AdjustmentSpec.ApprovalSettlesIffReferenced | app/infrastructure/adapters/learning_tools.py:347-360 | A fair approval ends applied or failed to apply exactly if the proposal has evidence references; without them it goes back to waiting |
| AdjustmentSpec.AppliedIff | app/infrastructure/adapters/learning_tools.py:347-458 | With references and, for the automatic path, confidence: the earliest suitable task changes exactly if the source is fresh and its day has room for the new duration; otherwise the error names the first that fails |
| AdjustmentSpec.ChangeIsExact | app/infrastructure/adapters/learning_tools.py:401-458 | A change rescales the durations and units of one suitable task by the clamped factor, signs a new version, and moves nothing else |
| AdjustmentSpec.BadEvidenceExpires | app/application/agent_runs.py:489-518 | One entry of evidence that is missing, changed or another student's makes every approval expire without a change |
| AdjustmentSpec.OverdueExpires | app/workers/tasks.py:212-235 | The expiry job expires exactly the waiting proposals that are due |
| AdjustmentSpec.AdjustedExactlyOnce | app/infrastructure/adapters/learning_tools.py:320-458 | Over any sequence of automatic applications, decisions, expiries, new proposals and task edits, a proposal has changed one task once if AUTO_COMMITTED or APPLIED, and none otherwise |
| AdjustmentSpec.AutoApplyWithinCapacity | app/infrastructure/adapters/learning_tools.py:320-338 | After the whole automatic transaction the day of every task it changed is within capacity, whichever others it changed |
| AdjustmentSpec.AutoApplyIsIdempotent | app/infrastructure/adapters/learning_tools.py:320-338 | Repeating the automatic application after a crash, on any later day, changes nothing |
| AdjustmentSpec.SettledProposalsLast | app/application/agent_runs.py:455-456 | A proposal that is neither pending nor awaiting confirmation never changes again |
| AdjustmentSpec.TargetIsSoonest | app/infrastructure/adapters/learning_tools.py:401-421 | The changed task is not the source, and no eligible task comes sooner |
| AdjustmentSpec.AdjustmentIsModest | app/infrastructure/adapters/learning_tools.py:428-429 | The new duration is at least one minute and within a quarter of the old one, up to rounding |
| AdjustmentSpec.ChangeOutdatesEvidence | app/application/agent_runs.py:489-518 | A change makes the evidence of every proposal that names the task's old version stale |
| Adjustments.LearningStore.ApplyMinorProposal | app/infrastructure/adapters/learning_tools.py:347-458 | The tables after the transaction, and which task was changed |
| Adjustments.LearningStore.DecideProposal | app/application/agent_runs.py:438-487 | The tables after a decision: expiry, stale evidence, rejection or application, only from an undecided status |
| Chapters.ChapterNodes | app/application/mock_exams.py:298-308 | The queue loop without visited set terminates from a node without parent, whatever cycles exist elsewhere, and returns exactly the nodes whose parent chain reaches the chapter, each once, the nearer ones first |
| Chapters.Pop | app/application/unlocks.py:439-448 | Taking a node from the queue and appending its children keeps found and waiting nodes distinct |
| Chapters.PopKeepsOrder | app/application/unlocks.py:439-448 | Taking a node from the queue and appending its children keeps nearer nodes before farther ones |
| Chapters.ScopesAreDisjoint | app/application/unlocks.py:93-105 | Different chapters share no node |
| Chapters.CyclesBelongNowhere | app/application/mock_exams.py:298-308 | A node on a parent cycle of any length belongs to no chapter |
| Chapters.GroupByParent | app/application/unlocks.py:93-96 | The dictionary holds, for every id, exactly its children in list order |
| Chapters.SpecializedScopes | app/application/unlocks.py:90-105 | One scope per node without parent, each exactly that chapter |
| Chapters.Summarize | app/application/unlocks.py:105-153 | The sums count each node's questions and at most as many done; they unlock a chapter exactly when it has questions and every node that has some is strengthened and completely done |
| PlannerSpec.WeekFitsItsDays | app/domain/planning/planner.py:153-194 | No day's learning tasks exceed its minutes |
| PlannerSpec.WeekRepeatsNothing | app/domain/planning/planner.py:153-194 | No task identity is scheduled twice, on one day or on two |
| PlannerSpec.WeekIsMaximal | app/domain/planning/planner.py:153-194 | A candidate of at least fifteen minutes that is on no day exceeds the final slack of every day |
| PlannerSpec.ShortTaskIsLeftOut | app/domain/planning/planner.py:192-193 | For every length under fifteen minutes some week leaves out such a candidate although it fits |
| PlannerSpec.MaximalIffLongEnough | app/domain/planning/planner.py:153-194 | No week leaves out a fitting candidate of a given length exactly when the length is at least fifteen minutes |
| PlannerLaws.PickedIff | app/domain/planning/planner.py:153-194 | A candidate is picked on a day exactly if its identity is on no earlier day and not among the day's better ranked picks, these leave it enough minutes, and at least fifteen |
| QuestionPlannerSpec.WeekFitsItsDays | app/domain/planning/planner.py:115-151 | No day's questions exceed its minutes, and every task holds one to five questions of its topic |
| QuestionPlannerSpec.TasksShareNoQuestion | app/domain/planning/planner.py:115-151 | No excluded question is scheduled, and no question in two tasks of the week |
| QuestionPlannerSpec.NeverTwiceIffUniqueOffers | app/domain/planning/planner.py:115-151 | No week asks a question twice in one task exactly when no two candidates offer the same question for the same topic |
| QuestionPlannerSpec.FitIsGood | app/domain/planning/planner.py:197-209 | The greedy fit takes matching questions in rank order within the minutes, at most five, and at least one if the first fits |
| PlannerLaws.ChosenIff | app/domain/planning/planner.py:197-209 | A question is chosen for a task exactly if fewer than five better ranked ones are and they leave it enough minutes |
| PlannerLaws.LeftOutForAFullTask | app/domain/planning/planner.py:115-151 | A question not asked by the end of a day, although its topic has a priority and it fits the rest of the day, gave way to a task of five questions of its topic on that day |
| PlannerLaws.TasksFollowPriorities | app/domain/planning/planner.py:115-151 | The tasks of a day are in the order of the priorities |
| PlannerLaws.TakenIsAsked | app/domain/planning/planner.py:115-151 | What a day may not ask again is what was excluded and what its tasks ask |
| Planner.BuildLearningWeek | app/domain/planning/planner.py:153-194 | The loops with `continue` and `break` produce the week the theorems are about |
| Planner.FitQuestions | app/domain/planning/planner.py:197-209 | The loop that stops at the fifth question computes the greedy fit |
| Planner.BuildWeek | app/domain/planning/planner.py:115-151 | Day by day, the tasks of the week the theorems are about |
| Planner.Ranked | app/domain/planning/planner.py:122-124 | The stable descending sort: a permutation in which equal scores keep their order |

## Left out

- Real SQL, asyncio, httpx and Redis: a transaction is one atomic step on maps or sequences. A commit whose
  acknowledgement is lost is modelled for tool handlers (effect and error), not for checkpoint or lease writes.
- SHA-256 digests: a digest or fingerprint is the value it is computed from, so equal digests mean equal values.
- AgentRuns.AgentDiagnosisService.ExecuteJob: the heartbeat's renewals are part of the interference; of the minor
  proposals only the fence is here, what they change is in `MinorAdjustments.dfy`.
- Harness.AgentRunner.Run: starts on states in which a pending call comes without a decision, and the interference
  never stores another kind as the latest checkpoint; `ProtocolTheorems.CheckpointsAreIntact` shows that no reachable
  system has one. A finishing reply has a confidence between zero and one, as `parse_final_decision` makes sure.
- DatabaseAdapters.DatabaseCheckpointStore.LoadLatest: a row holds the state and not the payload, so a payload that
  cannot be read back does not occur here; `Schemas.dfy` has the payloads.
- The contents of trace and guardrail rows, metrics, spans and log lines; the step id is a name made from the step
  number. That a trace write is refused or fails is modelled; for a call that failed already it is the same step as
  failing to save the end of the run.
- ToolRegistrySpec.LearningRegistryIsRegistered: only feature flags decide which tools are enabled, because no learning
  tool names an environment or a role.
- Prompts, redaction, JSON parsing of model messages and the demo model: a reply is a parsed action or malformed.
- The missing-pending-call check of `_execute_pending_tool` comes after the lease check instead of before it; the
  invariant shows that a reachable state never fails it.
- Evidence references are the text values of an observation; other JSON values are not converted to text.
- Argument models of read-only tools: their arguments are accepted as they are.
- ModelRouting.ModelRouter: the circuit breakers are proved separately; the router sees their answers as an
  arbitrary function of model and request number. A gateway is a function of the state and the number of requests
  sent before it, which `ModelRouting.QwenModelGateway.Decide` is proved to be.
- ProtocolCheckpoints.CheckpointsSurviveSerialization: assumes that no exception class has the name of one of the
  harness's own error codes, because the model keeps error codes apart by kind and not by text.
- PayloadSpec.CheckpointRoundTrip: the payload is a record with one JSON value per key, so missing and unknown
  top-level keys and the lenient coercions of the payload model do not occur in it.
- The stall result after a crash: the state is saved as READY before the run is terminated, so only the detector
  itself is claimed to be exact.
- A cancelled run is not claimed to stay cancelled: the cancel mark is unfenced.
- JobSpec.ClaimedAtMostMaxAttempts: only a worker that claimed the job finishes it or reports a failure; what a plan,
  mock, resource or evaluation job does inside its transaction is not modelled.
- ExamAssembly.SelectorAndValidatorAgree: takes nonnegative counts of the right sum; `_count_distribution` can go
  negative and the rebalancing of a full paper can change the sum, and `ExamAssembly.ValidIffWantedAndComplete` says
  what becomes of such counts. How the two compute them is left out.
- ExamAssembly.ValidIffWantedAndComplete: fewer than a thousand questions, because from there on the validator's
  tolerance lets counts pass that are off by one.
- ExamReview.ReviewCompletesThePaper: counts and attempt history are unchanged between the two assemblies and codes
  are unique, as the question table demands; the question generator and the reviewer's decision are not modelled.
- SpecializedPaper.SpecializedCounts: for every order of the chapter's topics; that they come sorted by attempts and
  accuracy is not modelled.
- Apportionment.SpecializedTargetCounts: exact reals instead of floating point, accuracies of at most one and distinct
  codes, as the node table demands.
- AdjustmentSpec.AdjustedExactlyOnce: with each transaction atomic; the automatic path does not lock the proposal
  row, so two overlapping transactions are outside the model. The capacity of a day is an arbitrary function.
- Score formulas of the planner, task titles and task types, `roll_forward` and the section mapping: short formulas
  or wording; the packing is proved for any ranking.
- HTTP routes, authentication, resource parsing, seed data, account purge, mastery and anomaly formulas, and the
  evaluation reports: easy members or input and output.
