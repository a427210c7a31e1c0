// app/harness/budget.py: the checks, as the reason they would raise with.
module BudgetSpec {
  import opened Wrappers
  import opened Contracts

  predicate TokensWithin(b: Budget, s: RuntimeState) {
    && s.inputTokens <= b.maxInputTokens
    && s.outputTokens <= b.maxOutputTokens
    && s.TotalTokens() <= b.maxTotalTokens
  }

  // `timeUp` says whether the clock has reached the runtime limit.
  function CheckCommon(b: Budget, s: RuntimeState, timeUp: bool): Option<TerminationReason> {
    if timeUp then Some(TIME_BUDGET_EXCEEDED)
    else if !TokensWithin(b, s) then Some(TOKEN_BUDGET_EXCEEDED)
    else None
  }

  function CheckBeforeModel(b: Budget, s: RuntimeState, timeUp: bool): Option<TerminationReason> {
    var common := CheckCommon(b, s, timeUp);
    if common.Some? then common
    else if s.loopCount >= b.maxSteps then Some(STEP_BUDGET_EXCEEDED)
    else if s.modelCalls >= b.maxModelCalls then Some(MODEL_CALL_BUDGET_EXCEEDED)
    else None
  }

  function CheckBeforeTool(b: Budget, s: RuntimeState, timeUp: bool): Option<TerminationReason> {
    var common := CheckCommon(b, s, timeUp);
    if common.Some? then common
    else if s.toolCalls >= b.maxToolCalls then Some(TOOL_BUDGET_EXCEEDED)
    else None
  }

  function CheckAfterModel(b: Budget, s: RuntimeState, timeUp: bool): Option<TerminationReason> {
    var common := CheckCommon(b, s, timeUp);
    if common.Some? then common
    else if s.modelCalls > b.maxModelCalls then Some(MODEL_CALL_BUDGET_EXCEEDED)
    else if s.repairCalls > b.maxRepairCalls then Some(REPAIR_BUDGET_EXCEEDED)
    else None
  }
}
