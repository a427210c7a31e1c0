// The value types of app/harness/contracts.py, plus the error codes of app/harness/errors.py.
module Contracts {
  import opened Wrappers

  datatype RuntimePhase = READY | TOOL_PENDING | FINAL_PENDING | TERMINATED

  datatype TerminationReason =
    | COMPLETED | INVALID_ACTION | STRUCTURED_OUTPUT_ERROR | UNKNOWN_TOOL
    | TOOL_VALIDATION_FAILED | TOOL_PERMISSION_DENIED | TOOL_FAILED | TOOL_OUTCOME_UNKNOWN
    | CHECKPOINT_INVALID | STEP_BUDGET_EXCEEDED | TOOL_BUDGET_EXCEEDED | TOKEN_BUDGET_EXCEEDED
    | MODEL_CALL_BUDGET_EXCEEDED | REPAIR_BUDGET_EXCEEDED | TIME_BUDGET_EXCEEDED | LOOP_STALLED
    | MODEL_UNAVAILABLE | CANCELLED | STALE_WORKER | INTERNAL_ERROR

  datatype StallReason = REPEATED_ACTION | NO_NEW_EVIDENCE | ACTION_OSCILLATION

  // `last_error_code`: the codes a resume may reopen, the code of a budget error (its own
  // termination reason), and every other code by its text.
  datatype ErrorCode =
    | CodeModelUnavailable
    | CodeToolTimeout
    | CodeToolRateLimited
    | CodeToolUpstream
    | CodeToolOutcomeUnknown
    | CodeBudget(exceeded: TerminationReason)
    | CodeOther(text: string)

  datatype ToolCall = ToolCall(name: string, arguments: Obj, key: Option<string>)

  datatype ModelAction = ModelAction(
    decision: Option<string>,
    confidence: real,
    reasonCodes: seq<string>,
    toolCall: Option<ToolCall>,
    finish: bool)

  datatype ModelErrorCode = MODEL_TIMEOUT | MODEL_NETWORK_ERROR | MODEL_HTTP(status: nat) | MODEL_INVALID_RESPONSE

  datatype Purpose = PRIMARY | REPAIR

  datatype ModelAttempt = ModelAttempt(
    modelName: string,
    purpose: Purpose,
    error: Option<ModelErrorCode>,
    inputTokens: nat,
    outputTokens: nat,
    latencyMs: nat)

  datatype ModelResult = ModelResult(
    action: ModelAction,
    modelName: string,
    inputTokens: nat,
    outputTokens: nat,
    latencyMs: nat,
    attempts: seq<ModelAttempt>,
    repairCalls: nat)
  {
    function ModelCallCount(): nat {
      if |attempts| == 0 then 1 else |attempts|
    }
  }

  // What a list of requests adds up to: tokens, milliseconds, repair requests that came back, and
  // requests that failed.
  datatype Totals = Totals(inputTokens: nat, outputTokens: nat, latencyMs: nat, repairs: nat, failures: nat) {
    function Plus(t: Totals): Totals {
      Totals(inputTokens + t.inputTokens, outputTokens + t.outputTokens, latencyMs + t.latencyMs,
             repairs + t.repairs, failures + t.failures)
    }
  }

  function TallyOne(a: ModelAttempt): Totals {
    Totals(a.inputTokens, a.outputTokens, a.latencyMs,
           if a.purpose == REPAIR && a.error.None? then 1 else 0, if a.error.Some? then 1 else 0)
  }

  function Tally(attempts: seq<ModelAttempt>): Totals { TallyOfFirst(attempts, |attempts|) }

  function TallyOfFirst(attempts: seq<ModelAttempt>, k: nat): Totals
    requires k <= |attempts|
  {
    if k == 0 then Totals(0, 0, 0, 0, 0) else TallyOfFirst(attempts, k - 1).Plus(TallyOne(attempts[k - 1]))
  }

  lemma {:induction false} TallyOfPrefix(a: seq<ModelAttempt>, b: seq<ModelAttempt>, k: nat)
    requires k <= |a|
    ensures TallyOfFirst(a + b, k) == TallyOfFirst(a, k)
  {
    if k > 0 { TallyOfPrefix(a, b, k - 1); }
  }

  lemma {:induction false} TallyOfMore(a: seq<ModelAttempt>, b: seq<ModelAttempt>, k: nat)
    requires k <= |b|
    ensures TallyOfFirst(a + b, |a| + k) == Tally(a).Plus(TallyOfFirst(b, k))
  {
    if k == 0 {
      TallyOfPrefix(a, b, |a|);
    } else {
      TallyOfMore(a, b, k - 1);
    }
  }

  lemma {:induction false} TallyOfConcat(a: seq<ModelAttempt>, b: seq<ModelAttempt>)
    ensures Tally(a + b) == Tally(a).Plus(Tally(b))
  {
    TallyOfMore(a, b, |b|);
  }

  const CHECKPOINT_VERSION := 2

  // Who the run is for; fixed when the run is created.
  datatype Identity = Identity(runId: string, studentId: string, goal: string, userId: Option<string>, roles: seq<string>)

  datatype RuntimeState = RuntimeState(
    identity: Identity,
    loopCount: nat,
    modelCalls: nat,
    toolCalls: nat,
    inputTokens: nat,
    outputTokens: nat,
    repairCalls: nat,
    modelCallLimit: nat,
    repairCallLimit: nat,
    startedAt: int,
    observations: seq<Obj>,
    actionPrints: seq<Json>,
    observationPrints: seq<Json>,
    fencingToken: nat,
    resumed: bool,
    phase: RuntimePhase,
    pendingCall: Option<ToolCall>,
    pendingStep: Option<string>,
    finalAction: Option<ModelAction>,
    stallReason: Option<StallReason>,
    terminationReason: Option<TerminationReason>,
    lastError: Option<ErrorCode>)
  {
    function TotalTokens(): nat { inputTokens + outputTokens }

    function RemainingModelCalls(): nat {
      if modelCallLimit <= modelCalls then 0 else modelCallLimit - modelCalls
    }

    function RemainingRepairCalls(): nat {
      if repairCallLimit <= repairCalls then 0 else repairCallLimit - repairCalls
    }
  }

  datatype Budget = Budget(
    maxSteps: nat,
    maxModelCalls: nat,
    maxToolCalls: nat,
    maxInputTokens: nat,
    maxOutputTokens: nat,
    maxTotalTokens: nat,
    maxRepairCalls: nat)
}
