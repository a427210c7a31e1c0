// app/harness/runner.py and the resume path of app/application/agent_runs.py: what a worker does
// between two database transactions, and which transaction comes next.
module RunnerSpec {
  import opened Wrappers
  import opened Contracts
  import opened LeaseSpec
  import opened StoreSpec
  import opened BudgetSpec
  import opened StallSpec
  import opened Keys
  import opened ToolSpec

  datatype Config = Config(
    identity: Identity,
    budget: Budget,
    tools: map<string, ToolDef>,
    firstObservation: Obj,
    leaseSeconds: nat)

  datatype Ending =
    | Completed(action: ModelAction)
    | Ended(reason: TerminationReason)
    | Fenced
    | Broken

  // The transaction, or model call, that a worker performs next.
  datatype Pc =
    | Load
    | Guard
    | Model
    | SaveFinal
    | SaveTool
    | SaveStalled
    | ToolGuard
    | Tool(at: ToolPc)
    | PostGuard(stalled: bool)
    | PostSave(stalled: bool)
    | CompleteGuard
    | CompleteSave
    | TermSave(reason: TerminationReason)
    | Finished(ending: Ending)

  datatype Worker = Worker(owner: string, pc: Pc, st: RuntimeState)

  // How the fenced write of a trace row ends that follows a model call or a tool call.
  datatype TraceWrite = Written | WriteRefused | WriteFailed(exceptionName: string)

  // What the world decides while a worker takes one step.
  datatype Choice =
    | Go
    | Fault(exceptionName: string)
    | ModelReply(result: ModelResult, trace: TraceWrite)
    | ModelFailure(structured: bool, attempts: seq<ModelAttempt>, trace: TraceWrite)
    | ToolAnswer(outcome: Outcome, trace: TraceWrite)

  function FreshState(cfg: Config, token: nat, now: int): RuntimeState {
    RuntimeState(cfg.identity, 0, 0, 0, 0, 0, 0, cfg.budget.maxModelCalls, cfg.budget.maxRepairCalls, now,
                 [cfg.firstObservation], [], [], token, false, READY, None, None, None, None, None, None)
  }

  predicate RetryableCode(code: ErrorCode) {
    || code.CodeModelUnavailable? || code.CodeToolTimeout? || code.CodeToolRateLimited?
    || code.CodeToolUpstream? || code.CodeToolOutcomeUnknown?
  }

  predicate Reopenable(st: RuntimeState) {
    st.phase == TERMINATED && st.lastError.Some? && RetryableCode(st.lastError.value)
  }

  // `_prepare_retryable_state`
  function Reopen(st: RuntimeState): RuntimeState {
    if !Reopenable(st) then st
    else st.(phase := if st.pendingCall.Some? && st.pendingStep.Some? then TOOL_PENDING else READY,
             terminationReason := None, lastError := None, finalAction := None)
  }

  // A loaded checkpoint as the runner starts on it.
  function Resume(cfg: Config, loaded: RuntimeState, token: nat): RuntimeState {
    Reopen(loaded.(fencingToken := token, resumed := true))
    .(modelCallLimit := cfg.budget.maxModelCalls, repairCallLimit := cfg.budget.maxRepairCalls)
  }

  // A call in flight comes without a decision.
  predicate Tidy(st: RuntimeState) { st.phase == TOOL_PENDING ==> st.finalAction.None? }

  // The head of `_run`: where a state in this phase continues.
  function Dispatch(st: RuntimeState): Pc {
    if st.phase == TERMINATED && st.terminationReason.Some? then
      Finished(if st.terminationReason == Some(COMPLETED) && st.finalAction.Some?
               then Completed(st.finalAction.value) else Ended(st.terminationReason.value))
    else if st.phase == FINAL_PENDING && st.finalAction.Some? then CompleteGuard
    else if st.phase == TOOL_PENDING then ToolGuard
    else Guard
  }

  function Terminate(w: Worker, reason: TerminationReason): Worker {
    w.(pc := TermSave(reason), st := w.st.(phase := TERMINATED, terminationReason := Some(reason)))
  }

  function Fail(w: Worker, reason: TerminationReason, code: ErrorCode): Worker {
    Terminate(w.(st := w.st.(lastError := Some(code))), reason)
  }

  function OverBudget(w: Worker, reason: TerminationReason): Worker { Fail(w, reason, CodeBudget(reason)) }

  function Lose(w: Worker): Worker { w.(pc := Finished(Fenced)) }

  function IfActive(db: Db, token: nat, now: int, w: Worker, onward: Worker): Worker {
    match ActiveTxn(db.run, w.st.fencingToken, token, w.owner, now)
    case Granted(_) => onward
    case Denied(why) => if why == RunCancelled then Fail(w, CANCELLED, CodeOther("RUN_CANCELLED")) else Lose(w)
  }

  function AfterModel(st: RuntimeState, r: ModelResult): RuntimeState {
    st.(loopCount := st.loopCount + 1,
        modelCalls := st.modelCalls + r.ModelCallCount(),
        inputTokens := st.inputTokens + r.inputTokens,
        outputTokens := st.outputTokens + r.outputTokens,
        repairCalls := st.repairCalls + r.repairCalls)
  }

  // `_record_model_failure`
  function AfterModelFailure(st: RuntimeState, structured: bool, attempts: seq<ModelAttempt>): RuntimeState {
    st.(loopCount := st.loopCount + 1,
        modelCalls := st.modelCalls + |attempts|,
        inputTokens := st.inputTokens + Tally(attempts).inputTokens,
        outputTokens := st.outputTokens + Tally(attempts).outputTokens,
        repairCalls := st.repairCalls + (if structured && |attempts| > 1 then |attempts| - 1 else 0))
  }

  function StepId(st: RuntimeState): string { "step-" + Decimal(st.loopCount) }

  // Where a worker goes on from a trace write: a refused one means that the lease is lost.
  function AfterTrace(w: Worker, trace: TraceWrite, onward: Worker): Worker {
    match trace
    case Written => onward
    case WriteRefused => Lose(w)
    case WriteFailed(n) => Fail(w, INTERNAL_ERROR, CodeOther(n))
  }

  // The branches of the loop body once the model has answered.
  function OnModelReply(cfg: Config, timeUp: bool, w: Worker, r: ModelResult, trace: TraceWrite): Worker {
    OnCounted(cfg, timeUp, w.(st := AfterModel(w.st, r)), r.action, trace)
  }

  function OnCounted(cfg: Config, timeUp: bool, w: Worker, reply: ModelAction, trace: TraceWrite): Worker {
    var over := CheckAfterModel(cfg.budget, w.st, timeUp);
    if over.Some? then OverBudget(w, over.value)
    else AfterTrace(w, trace, OnAction(cfg, timeUp, w, BindIdempotency(reply, cfg.identity.runId, w.st.loopCount)))
  }

  function OnAction(cfg: Config, timeUp: bool, w: Worker, action: ModelAction): Worker {
    if action.finish then OnFinish(w, action)
    else if action.toolCall.None? then Terminate(w, INVALID_ACTION)
    else OnToolCall(cfg, timeUp, w, action.toolCall.value)
  }

  function OnModelFailure(w: Worker, structured: bool, attempts: seq<ModelAttempt>, trace: TraceWrite): Worker {
    var failed := w.(st := AfterModelFailure(w.st, structured, attempts));
    AfterTrace(failed, trace,
               if structured
               then Fail(failed, TerminationReason.STRUCTURED_OUTPUT_ERROR, CodeOther("STRUCTURED_OUTPUT_ERROR"))
               else Fail(failed, TerminationReason.MODEL_UNAVAILABLE, CodeModelUnavailable))
  }

  function OnFinish(w: Worker, action: ModelAction): Worker {
    if action.toolCall.Some? || action.decision.None? then Terminate(w, INVALID_ACTION)
    else w.(pc := SaveFinal,
            st := w.st.(finalAction := Some(action), pendingStep := Some(StepId(w.st)), phase := FINAL_PENDING))
  }

  function OnToolCall(cfg: Config, timeUp: bool, w: Worker, call: ToolCall): Worker {
    var prints := Window(w.st.actionPrints + [ActionFingerprint(call)]);
    var st := w.st.(actionPrints := prints);
    var alarm := ActionAlarm(prints);
    if alarm.Some? then w.(pc := SaveStalled, st := st.(stallReason := alarm))
    else
      var over := CheckBeforeTool(cfg.budget, st, timeUp);
      if over.Some? then OverBudget(w.(st := st), over.value)
      else w.(pc := SaveTool,
              st := st.(pendingCall := Some(call), pendingStep := Some(StepId(st)), phase := TOOL_PENDING))
  }

  function FinalActionOf(decision: string, arguments: Obj): ModelAction {
    var confidence :=
      if "confidence" !in arguments then 0.0
      else match arguments["confidence"]
        case JReal(x) => x
        case JInt(i) => i as real
        case _ => 0.0;
    ModelAction(Some(decision), confidence,
                if "reason_codes" in arguments then Texts(arguments["reason_codes"]) else [], None, true)
  }

  function Observation(call: ToolCall, result: Obj, replayed: bool): Obj {
    map["tool" := JStr(call.name), "result" := JObj(result), "replayed" := JBool(replayed)]
  }

  // The state whose tool call is traced: counted and observed, with the call still pending.
  function Executed(st: RuntimeState, call: ToolCall, result: Obj, replayed: bool): RuntimeState {
    st.(toolCalls := st.toolCalls + 1, observations := st.observations + [Observation(call, result, replayed)])
  }

  // The rest of `_execute_pending_tool` after the trace row has been written.
  function AfterTool(w: Worker, def: ToolDef, call: ToolCall, result: Obj, replayed: bool): Worker {
    var seen := Observation(call, result, replayed);
    var st := w.st.(toolCalls := w.st.toolCalls + 1, observations := w.st.observations + [seen],
                    pendingCall := None, pendingStep := None);
    if def.terminal.Some? then
      w.(pc := PostGuard(false),
         st := st.(finalAction := Some(FinalActionOf(def.terminal.value, call.arguments)), phase := FINAL_PENDING))
    else
      var prints := Window(st.observationPrints + [ObservationFingerprint(seen)]);
      var alarm := ObservationAlarm(prints);
      w.(pc := PostGuard(alarm.Some?),
         st := st.(observationPrints := prints, phase := READY,
                   stallReason := if alarm.Some? then alarm else st.stallReason))
  }

  // Before the ledger is touched: budget, registry, argument and policy checks.
  function EnterTool(cfg: Config, timeUp: bool, w: Worker): Worker {
    if w.st.pendingCall.None? || w.st.pendingStep.None? then Fail(w, INTERNAL_ERROR, CodeOther("RuntimeError"))
    else
      var call := w.st.pendingCall.value;
      var over := CheckBeforeTool(cfg.budget, w.st, timeUp);
      if over.Some? then OverBudget(w, over.value)
      else if call.name !in cfg.tools then Fail(w, UNKNOWN_TOOL, UnknownTool.Code())
      else
        var def := cfg.tools[call.name];
        var refused := Precheck(def, call);
        if refused.Some? then Fail(w, refused.value.Reason(), refused.value.Code())
        else w.(pc := Tool(if def.sideEffect then Begin else Handler(1)))
  }

  function OnToolMove(w: Worker, def: ToolDef, call: ToolCall, move: ToolMove): Worker {
    match move
    case Next(pc) => w.(pc := Tool(pc))
    case Returned(result, replayed) => AfterTool(w, def, call, result, replayed)
    case Raised(e) => Fail(w, e.Reason(), e.Code())
    case Lost => Lose(w)
  }

  // A move of the executor, with the trace write that follows a returned result.
  function AfterMove(w: Worker, def: ToolDef, call: ToolCall, move: ToolMove, trace: TraceWrite): Worker {
    if move.Returned? then
      AfterTrace(w.(st := Executed(w.st, call, move.result, move.replayed)), trace, OnToolMove(w, def, call, move))
    else OnToolMove(w, def, call, move)
  }

  function ToolWork(cfg: Config, token: nat, now: int, db: Db, w: Worker, at: ToolPc, o: Outcome,
      trace: TraceWrite): (Db, Worker) {
    if w.st.pendingCall.None? || w.st.pendingCall.value.name !in cfg.tools then (db, w)
    else
      var call := w.st.pendingCall.value;
      var def := cfg.tools[call.name];
      var (db', move) := ToolStep(def, db, token, now, call, BoundArguments(call, w.st.observations), at, o);
      (db', AfterMove(w, def, call, move, trace))
  }

  function SaveThen(db: Db, token: nat, now: int, w: Worker, saved: Worker): (Db, Worker) {
    var r := SaveTxn(db, token, now, w.st);
    if r.Some? then (r.value, saved) else (db, Lose(w))
  }

  // `finish=True` with a decision comes out of `parse_final_decision`, which bounds the confidence.
  predicate ParsedAction(a: ModelAction) {
    a.finish && a.toolCall.None? && a.decision.Some? ==> 0.0 <= a.confidence <= 1.0
  }

  function OnFault(w: Worker, name: string): Worker {
    if w.pc.TermSave? || w.pc.Load? then w.(pc := Finished(Broken))
    else Fail(w, INTERNAL_ERROR, CodeOther(name))
  }

  predicate Checks(pc: Pc) { pc.Guard? || pc.ToolGuard? || pc.PostGuard? || pc.CompleteGuard? }

  predicate Saves(pc: Pc) {
    pc.SaveFinal? || pc.SaveTool? || pc.SaveStalled? || pc.PostSave? || pc.CompleteSave? || pc.TermSave?
  }

  // After `assert_active` has passed.
  function AfterCheck(cfg: Config, timeUp: bool, w: Worker): Worker {
    match w.pc
    case Guard =>
      var over := CheckBeforeModel(cfg.budget, w.st, timeUp);
      if over.Some? then OverBudget(w, over.value) else w.(pc := Model)
    case ToolGuard => EnterTool(cfg, timeUp, w)
    case PostGuard(stalled) => w.(pc := PostSave(stalled))
    case CompleteGuard =>
      if w.st.finalAction.None? then Terminate(w, INVALID_ACTION)
      else w.(pc := CompleteSave,
              st := w.st.(phase := TERMINATED, terminationReason := Some(COMPLETED), lastError := None))
    case _ => w
  }

  // After the checkpoint has been saved.
  function AfterSave(w: Worker): Worker {
    match w.pc
    case SaveFinal => w.(pc := CompleteGuard)
    case SaveTool => w.(pc := ToolGuard)
    case SaveStalled => Terminate(w, LOOP_STALLED)
    case PostSave(stalled) =>
      if stalled then Terminate(w, LOOP_STALLED)
      else if w.st.phase == FINAL_PENDING then w.(pc := CompleteGuard) else w.(pc := Guard)
    case CompleteSave =>
      w.(pc := Finished(if w.st.finalAction.Some? then Completed(w.st.finalAction.value) else Broken))
    case TermSave(reason) => w.(pc := Finished(Ended(reason)))
    case _ => w
  }

  function ModelWork(cfg: Config, timeUp: bool, w: Worker, ch: Choice): Worker {
    match ch
    case ModelReply(r, trace) => if ParsedAction(r.action) then OnModelReply(cfg, timeUp, w, r, trace) else w
    case ModelFailure(structured, attempts, trace) => OnModelFailure(w, structured, attempts, trace)
    case _ => w
  }

  ghost function LoadWork(cfg: Config, token: nat, now: int, db: Db, w: Worker): Worker {
    if !FencePasses(db.run, token, None, now) then Lose(w)
    else
      var loaded := LoadLatest(db);
      var st := if loaded.None? then FreshState(cfg, token, now) else Resume(cfg, loaded.value, token);
      w.(pc := Dispatch(st), st := st)
  }

  // One step of the worker that acquired `token`.
  ghost function Work(cfg: Config, token: nat, now: int, timeUp: bool, db: Db, w: Worker, ch: Choice): (Db, Worker) {
    if w.pc.Finished? then (db, w)
    else if ch.Fault? then (db, OnFault(w, ch.exceptionName))
    else if w.pc.Load? then (db, LoadWork(cfg, token, now, db, w))
    else if w.pc.Model? then (db, ModelWork(cfg, timeUp, w, ch))
    else if Checks(w.pc) then (db, IfActive(db, token, now, w, AfterCheck(cfg, timeUp, w)))
    else if Saves(w.pc) then SaveThen(db, token, now, w, AfterSave(w))
    else if ch.ToolAnswer? then ToolWork(cfg, token, now, db, w, w.pc.at, ch.outcome, ch.trace)
    else (db, w)
  }
}
