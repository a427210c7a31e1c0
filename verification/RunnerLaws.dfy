// When the runner goes on and when it stops (app/harness/runner.py with budget.py and lease.py): the exact
// condition of every gate, and the reasons of a stop over whole histories.
module RunnerLaws {
  import opened Wrappers
  import opened Contracts
  import opened LeaseSpec
  import opened StoreSpec
  import opened BudgetSpec
  import opened StallSpec
  import opened Keys
  import opened ToolSpec
  import opened RunnerSpec
  import opened Protocol
  import opened ProtocolInvariant
  import opened ProtocolTheorems
  import opened ProtocolHistory
  import QwenSpec

  // The worker holds the lease: the row carries its token and its name, and has not expired.
  predicate Holds(row: RunRow, token: nat, w: Worker, now: int) {
    && w.st.fencingToken == token == row.token && row.owner == Some(w.owner)
    && row.expires.Some? && now < row.expires.value
  }

  predicate Frugal(b: Budget, st: RuntimeState) {
    && st.inputTokens <= b.maxInputTokens && st.outputTokens <= b.maxOutputTokens
    && st.inputTokens + st.outputTokens <= b.maxTotalTokens
  }

  // The model is asked exactly while the lease is held, nobody has asked to cancel, and time, tokens, steps and
  // model calls are left.
  lemma {:induction false} ModelIsAskedIff(cfg: Config, token: nat, now: int, timeUp: bool, db: Db, w: Worker,
      ch: Choice)
    requires w.pc == Guard && !ch.Fault?
    ensures Work(cfg, token, now, timeUp, db, w, ch).1.pc == Model <==>
              && Holds(db.run, token, w, now) && db.run.status != CANCEL_REQUESTED
              && !timeUp && Frugal(cfg.budget, w.st)
              && w.st.loopCount < cfg.budget.maxSteps && w.st.modelCalls < cfg.budget.maxModelCalls
  {
  }

  // The executor is entered exactly while the lease is held, nobody has asked to cancel, time, tokens and tool
  // calls are left, and the tool is there, permitted and, if it writes, called with a key and valid arguments.
  lemma {:induction false} ToolIsEnteredIff(cfg: Config, token: nat, now: int, timeUp: bool, db: Db, w: Worker,
      ch: Choice)
    requires w.pc == ToolGuard && !ch.Fault? && w.st.pendingCall.Some? && w.st.pendingStep.Some?
    ensures Work(cfg, token, now, timeUp, db, w, ch).1.pc.Tool? <==>
              var call := w.st.pendingCall.value;
              && Holds(db.run, token, w, now) && db.run.status != CANCEL_REQUESTED
              && !timeUp && Frugal(cfg.budget, w.st) && w.st.toolCalls < cfg.budget.maxToolCalls
              && call.name in cfg.tools && cfg.tools[call.name].permitted
              && (cfg.tools[call.name].sideEffect ==> call.key.Some? && ValidProposalArgs(call.arguments))
  {
  }

  // What the reply costs still fits.
  predicate Affordable(b: Budget, st: RuntimeState, r: ModelResult) {
    && st.inputTokens + r.inputTokens <= b.maxInputTokens && st.outputTokens + r.outputTokens <= b.maxOutputTokens
    && st.inputTokens + r.inputTokens + (st.outputTokens + r.outputTokens) <= b.maxTotalTokens
    && st.modelCalls + (if |r.attempts| == 0 then 1 else |r.attempts|) <= b.maxModelCalls
    && st.repairCalls + r.repairCalls <= b.maxRepairCalls
  }

  // A traced reply becomes the decision exactly if it finishes with one and no call, in time and within budget.
  lemma {:induction false} ReplyDecidesIff(cfg: Config, token: nat, now: int, timeUp: bool, db: Db, w: Worker,
      r: ModelResult)
    requires w.pc == Model && ParsedAction(r.action)
    ensures Work(cfg, token, now, timeUp, db, w, ModelReply(r, Written)).1.pc == SaveFinal <==>
              && !timeUp && Affordable(cfg.budget, w.st, r)
              && r.action.finish && r.action.decision.Some? && r.action.toolCall.None?
  {
  }

  lemma {:induction false} AffordableIff(b: Budget, st: RuntimeState, r: ModelResult, timeUp: bool)
    ensures CheckAfterModel(b, AfterModel(st, r), timeUp).None? <==> !timeUp && Affordable(b, st, r)
    ensures !timeUp && Affordable(b, st, r) ==> Frugal(b, AfterModel(st, r))
  {
  }

  lemma {:induction false} CallLeadsOn(cfg: Config, timeUp: bool, w: Worker, call: ToolCall)
    ensures
      var v := OnToolCall(cfg, timeUp, w, call);
      && (v.pc == SaveStalled <==> ActionAlarm(v.st.actionPrints).Some?)
      && (!timeUp && Frugal(cfg.budget, w.st) ==>
            (v.pc == SaveTool <==> ActionAlarm(v.st.actionPrints).None? && w.st.toolCalls < cfg.budget.maxToolCalls))
  {
  }

  // A traced reply in time and within budget that asks for a call leads to it if there are tool calls left,
  // unless the call closes a loop.
  lemma {:induction false} ReplyCallsIff(cfg: Config, token: nat, now: int, timeUp: bool, db: Db, w: Worker,
      r: ModelResult)
    requires w.pc == Model && ParsedAction(r.action)
    ensures
      var w' := Work(cfg, token, now, timeUp, db, w, ModelReply(r, Written)).1;
      var asks := !timeUp && Affordable(cfg.budget, w.st, r) && !r.action.finish && r.action.toolCall.Some?;
      && (w'.pc == SaveStalled <==> asks && ActionAlarm(w'.st.actionPrints).Some?)
      && (w'.pc == SaveTool <==> asks && ActionAlarm(w'.st.actionPrints).None? && w.st.toolCalls < cfg.budget.maxToolCalls)
  {
    var counted := w.(st := AfterModel(w.st, r));
    AffordableIff(cfg.budget, w.st, r, timeUp);
    assert ModelWork(cfg, timeUp, w, ModelReply(r, Written)) == OnCounted(cfg, timeUp, counted, r.action, Written);
    if r.action.toolCall.Some? {
      CallLeadsOn(cfg, timeUp, counted, BindIdempotency(r.action, cfg.identity.runId, counted.st.loopCount).toolCall.value);
    }
  }

  // The call that is then pending is the one the reply asks for, with the key of its step if it is a proposal.
  lemma {:induction false} CallIsTheRepliesOwn(cfg: Config, token: nat, now: int, timeUp: bool, db: Db, w: Worker,
      r: ModelResult)
    requires w.pc == Model && ParsedAction(r.action)
    requires Work(cfg, token, now, timeUp, db, w, ModelReply(r, Written)).1.pc == SaveTool
    ensures r.action.toolCall.Some?
    ensures
      var asked, call := r.action.toolCall.value, Work(cfg, token, now, timeUp, db, w, ModelReply(r, Written)).1.st.pendingCall;
      && call.Some? && call.value.name == asked.name && call.value.arguments == asked.arguments
      && (IsProposalName(asked.name) ==> call.value.key == Some(BoundKey(cfg.identity.runId, w.st.loopCount + 1, asked.name)))
      && (!IsProposalName(asked.name) ==> call.value.key == asked.key)
  {
    assert ModelWork(cfg, timeUp, w, ModelReply(r, Written)) == OnCounted(cfg, timeUp, w.(st := AfterModel(w.st, r)), r.action, Written);
  }

  // The key that the gateway binds a call to is the one that the runner binds it to.
  lemma {:induction false} GatewayAndRunnerBindAlike(st: RuntimeState, action: ModelAction, r: ModelResult)
    ensures BindIdempotency(QwenSpec.Bound(action, st), st.identity.runId, AfterModel(st, r).loopCount) == QwenSpec.Bound(action, st)
  {
  }

  // A failure can be taken up again exactly if it may pass or its outcome is unknown: a tool's timeout, rate limit
  // or upstream error, a write that was lost sight of, and an unavailable model, but no malformed output.
  lemma {:induction false} ReopenedIffPassing(w: Worker, def: ToolDef, call: ToolCall, e: ToolError, structured: bool,
      attempts: seq<ModelAttempt>)
    ensures Reopenable(OnToolMove(w, def, call, Raised(e)).st) <==>
              e == ToolTimeout || e == ToolRateLimited || e == ToolUpstream || e == ToolOutcomeUnknown
    ensures OnToolMove(w, def, call, Raised(e)).pc == TermSave(e.Reason())
    ensures Reopenable(OnModelFailure(w, structured, attempts, Written).st) <==> !structured
  {
  }

  // A run ends as cancelled exactly where a check by the holder of the token meets a request to cancel.
  lemma {:induction false} CancelledIffRequested(cfg: Config, token: nat, now: int, timeUp: bool, db: Db, w: Worker,
      ch: Choice)
    requires !w.pc.TermSave? && !w.pc.Load?
    ensures Work(cfg, token, now, timeUp, db, w, ch).1.pc == TermSave(CANCELLED) <==>
              && Checks(w.pc) && !ch.Fault? && w.st.fencingToken == token && db.run.status == CANCEL_REQUESTED
  {
    if Checks(w.pc) {
      assert w.pc == ToolGuard ==> EnterTool(cfg, timeUp, w).pc != TermSave(CANCELLED);
    } else if w.pc.Tool? && ch.ToolAnswer? && w.st.pendingCall.Some? && w.st.pendingCall.value.name in cfg.tools {
      var call := w.st.pendingCall.value;
      var def := cfg.tools[call.name];
      MoveNeverCancels(w, def, call,
                       ToolStep(def, db, token, now, call, BoundArguments(call, w.st.observations), w.pc.at, ch.outcome).1, ch.trace);
    }
  }

  lemma {:induction false} MoveNeverCancels(w: Worker, def: ToolDef, call: ToolCall, move: ToolMove, trace: TraceWrite)
    requires !w.pc.TermSave?
    ensures AfterMove(w, def, call, move, trace).pc != TermSave(CANCELLED)
  {
  }

  // ---- Why a run stopped -------------------------------------------------------------------

  // A state that gives a budget as its reason has used that budget up.
  predicate Earned(b: Budget, st: RuntimeState) {
    match st.terminationReason
    case Some(STEP_BUDGET_EXCEEDED) => st.loopCount >= b.maxSteps
    case Some(MODEL_CALL_BUDGET_EXCEEDED) => st.modelCalls >= b.maxModelCalls
    case Some(TOOL_BUDGET_EXCEEDED) => st.toolCalls >= b.maxToolCalls
    case Some(REPAIR_BUDGET_EXCEEDED) => st.repairCalls > b.maxRepairCalls
    case Some(TOKEN_BUDGET_EXCEEDED) => !Frugal(b, st)
    case _ => true
  }

  lemma {:induction false} TraceEarns(b: Budget, w: Worker, trace: TraceWrite, onward: Worker)
    requires Earned(b, w.st) && Earned(b, onward.st)
    ensures Earned(b, AfterTrace(w, trace, onward).st)
  {
  }

  lemma {:induction false} ModelWorkEarns(cfg: Config, timeUp: bool, w: Worker, ch: Choice)
    requires Earned(cfg.budget, w.st)
    ensures Earned(cfg.budget, ModelWork(cfg, timeUp, w, ch).st)
  {
    match ch {
      case ModelReply(r, trace) =>
        if ParsedAction(r.action) { CountedEarns(cfg, timeUp, w.(st := AfterModel(w.st, r)), r.action, trace); }
      case ModelFailure(structured, attempts, trace) =>
        var failed := w.(st := AfterModelFailure(w.st, structured, attempts));
        assert Earned(cfg.budget, failed.st);
      case _ =>
    }
  }

  lemma {:induction false} CountedEarns(cfg: Config, timeUp: bool, w: Worker, reply: ModelAction, trace: TraceWrite)
    requires Earned(cfg.budget, w.st)
    ensures Earned(cfg.budget, OnCounted(cfg, timeUp, w, reply, trace).st)
  {
    var action := BindIdempotency(reply, cfg.identity.runId, w.st.loopCount);
    ActionEarns(cfg, timeUp, w, action);
    TraceEarns(cfg.budget, w, trace, OnAction(cfg, timeUp, w, action));
  }

  lemma {:induction false} ActionEarns(cfg: Config, timeUp: bool, w: Worker, action: ModelAction)
    requires Earned(cfg.budget, w.st)
    ensures Earned(cfg.budget, OnAction(cfg, timeUp, w, action).st)
  {
    if action.finish {
      assert Earned(cfg.budget, OnFinish(w, action).st);
    } else if action.toolCall.Some? {
      CallEarns(cfg, timeUp, w, action.toolCall.value);
    }
  }

  lemma {:induction false} CallEarns(cfg: Config, timeUp: bool, w: Worker, call: ToolCall)
    requires Earned(cfg.budget, w.st)
    ensures Earned(cfg.budget, OnToolCall(cfg, timeUp, w, call).st)
  {
    var prints := Window(w.st.actionPrints + [ActionFingerprint(call)]);
    var v := w.(st := w.st.(actionPrints := prints));
    var over := CheckBeforeTool(cfg.budget, v.st, timeUp);
    if ActionAlarm(prints).None? && over.Some? {
      OverEarns(cfg.budget, v, timeUp, over.value);
      assert OnToolCall(cfg, timeUp, w, call) == OverBudget(v, over.value);
    } else {
      assert OnToolCall(cfg, timeUp, w, call).st.terminationReason == w.st.terminationReason;
    }
  }

  lemma {:induction false} OverEarns(b: Budget, w: Worker, timeUp: bool, reason: TerminationReason)
    requires CheckBeforeTool(b, w.st, timeUp) == Some(reason)
    ensures Earned(b, OverBudget(w, reason).st)
  {
  }

  lemma {:induction false} MoveEarns(b: Budget, w: Worker, def: ToolDef, call: ToolCall, move: ToolMove,
      trace: TraceWrite)
    requires Earned(b, w.st)
    ensures Earned(b, AfterMove(w, def, call, move, trace).st)
  {
    match move {
      case Returned(result, replayed) =>
        var seen := w.(st := Executed(w.st, call, result, replayed));
        TraceEarns(b, seen, trace, AfterTool(w, def, call, result, replayed));
      case _ =>
    }
  }

  lemma {:induction false} CheckEarns(cfg: Config, timeUp: bool, w: Worker)
    requires Earned(cfg.budget, w.st) && Checks(w.pc)
    ensures Earned(cfg.budget, AfterCheck(cfg, timeUp, w).st)
  {
    if w.pc == ToolGuard { assert Earned(cfg.budget, EnterTool(cfg, timeUp, w).st); }
  }

  lemma {:induction false} LoadEarns(cfg: Config, token: nat, now: int, db: Db, w: Worker)
    requires TableOK(db) && Earned(cfg.budget, w.st) && (db.lastSaved.Some? ==> Earned(cfg.budget, db.lastSaved.value))
    ensures Earned(cfg.budget, LoadWork(cfg, token, now, db, w).st)
  {
    LoadIsLastSaved(db);
  }

  lemma {:induction false} StepEarns(cfg: Config, token: nat, now: int, timeUp: bool, db: Db, w: Worker, ch: Choice)
    requires TableOK(db) && Earned(cfg.budget, w.st) && (db.lastSaved.Some? ==> Earned(cfg.budget, db.lastSaved.value))
    ensures Earned(cfg.budget, Work(cfg, token, now, timeUp, db, w, ch).1.st)
  {
    if w.pc.Finished? || ch.Fault? {
    } else if w.pc.Load? {
      LoadEarns(cfg, token, now, db, w);
    } else if w.pc.Model? {
      ModelWorkEarns(cfg, timeUp, w, ch);
    } else if Checks(w.pc) {
      CheckEarns(cfg, timeUp, w);
      assert IfActive(db, token, now, w, AfterCheck(cfg, timeUp, w)).st.terminationReason.Some? ==>
               Earned(cfg.budget, IfActive(db, token, now, w, AfterCheck(cfg, timeUp, w)).st);
    } else if Saves(w.pc) {
      assert Earned(cfg.budget, AfterSave(w).st);
    } else if ch.ToolAnswer? && w.st.pendingCall.Some? && w.st.pendingCall.value.name in cfg.tools {
      var call := w.st.pendingCall.value;
      var def := cfg.tools[call.name];
      MoveEarns(cfg.budget, w, def, call,
                ToolStep(def, db, token, now, call, BoundArguments(call, w.st.observations), w.pc.at, ch.outcome).1, ch.trace);
    }
  }

  ghost predicate AllEarned(b: Budget, s: System) {
    && (forall t | t in s.workers :: Earned(b, s.workers[t].st))
    && (s.db.lastSaved.Some? ==> Earned(b, s.db.lastSaved.value))
  }

  lemma {:induction false} EventEarns(cfg: Config, s: System, e: Event)
    requires Inv(cfg, s) && AllEarned(cfg.budget, s)
    ensures AllEarned(cfg.budget, Advance(cfg, s, e))
  {
    if e.Step? && e.token in s.workers {
      StepEarns(cfg, e.token, e.now, e.timeUp, s.db, s.workers[e.token], e.choice);
      WorkSavesItsState(cfg, e.token, e.now, e.timeUp, s.db, s.workers[e.token], e.choice);
    }
  }

  lemma {:induction false} RunEarns(cfg: Config, s: System, events: seq<Event>)
    requires Registered(cfg) && Initial(s)
    ensures AllEarned(cfg.budget, RunAll(cfg, s, events))
    decreases |events|
  {
    if events != [] {
      var before := events[..|events| - 1];
      RunEarns(cfg, s, before);
      ReachableInv(cfg, s, before);
      EventEarns(cfg, RunAll(cfg, s, before), events[|events| - 1]);
    }
  }

  // A run that was stopped for a budget had really spent it, over all its workers, crashes and resumes.
  lemma {:induction false} BudgetStopsAreEarned(cfg: Config, s: System, events: seq<Event>)
    requires Registered(cfg) && Initial(s) && RunAll(cfg, s, events).db.lastSaved.Some?
    ensures
      var spent, b := Spent(ChronicleOf(cfg, s, events).saved), cfg.budget;
      match RunAll(cfg, s, events).db.lastSaved.value.terminationReason
      case Some(STEP_BUDGET_EXCEEDED) => spent.steps == b.maxSteps
      case Some(MODEL_CALL_BUDGET_EXCEEDED) => spent.modelCalls >= b.maxModelCalls
      case Some(TOOL_BUDGET_EXCEEDED) => spent.toolCalls == b.maxToolCalls
      case Some(REPAIR_BUDGET_EXCEEDED) => spent.repairs > b.maxRepairCalls
      case Some(TOKEN_BUDGET_EXCEEDED) =>
        spent.inputTokens > b.maxInputTokens || spent.outputTokens > b.maxOutputTokens
        || spent.inputTokens + spent.outputTokens > b.maxTotalTokens
      case _ => true
  {
    RunEarns(cfg, s, events);
    ReachableInv(cfg, s, events);
    SavedStateIsWhatWasDone(cfg, s, events);
    var last := RunAll(cfg, s, events).db.lastSaved.value;
    assert Sane(cfg, last) && Earned(cfg.budget, last);
    assert BillOf(last) == Spent(ChronicleOf(cfg, s, events).saved);
  }

  // ---- Undisturbed runs --------------------------------------------------------------------

  // The worker takes these steps in turn, in time, while nobody else touches the database.
  ghost function Drive(cfg: Config, token: nat, now: int, db: Db, w: Worker, choices: seq<Choice>): (Db, Worker)
    decreases |choices|
  {
    if choices == [] then (db, w)
    else
      var (db', w') := Work(cfg, token, now, false, db, w, choices[0]);
      Drive(cfg, token, now, db', w', choices[1..])
  }

  lemma {:induction false} DriveOnce(cfg: Config, token: nat, now: int, db: Db, w: Worker, choices: seq<Choice>,
      db': Db, w': Worker)
    requires choices != [] && Work(cfg, token, now, false, db, w, choices[0]) == (db', w')
    ensures Drive(cfg, token, now, db, w, choices) == Drive(cfg, token, now, db', w', choices[1..])
  {
  }

  predicate Free(row: RunRow, token: nat, w: Worker, now: int) { Holds(row, token, w,
      now) && row.status != CANCEL_REQUESTED }

  function SavedAs(db: Db, st: RuntimeState, token: nat): Db {
    db.(checkpoints := db.checkpoints[st.loopCount := RowOf(st, token)], lastSaved := Some(st))
  }

  lemma {:induction false} SaveStep(cfg: Config, token: nat, now: int, db: Db, w: Worker)
    requires Saves(w.pc) && Holds(db.run, token, w, now)
    ensures Work(cfg, token, now, false, db, w, Go) == (SavedAs(db, w.st, token), AfterSave(w))
  {
  }

  lemma {:induction false} CheckStep(cfg: Config, token: nat, now: int, db: Db, w: Worker)
    requires Checks(w.pc) && Free(db.run, token, w, now)
    ensures Work(cfg, token, now, false, db, w, Go) == (db, AfterCheck(cfg, false, w))
  {
  }

  function CompletedAs(st: RuntimeState): RuntimeState {
    st.(phase := TERMINATED, terminationReason := Some(COMPLETED), lastError := None)
  }

  // A decided state is checked, marked as completed and saved, and the decision is reported.
  lemma {:induction false} DecidedCompletes(cfg: Config, token: nat, now: int, db: Db, w: Worker)
    requires w.pc == CompleteGuard && w.st.finalAction.Some? && Free(db.run, token, w, now)
    ensures Drive(cfg, token, now, db, w, [Go, Go])
            == (SavedAs(db, CompletedAs(w.st), token), Worker(w.owner, Finished(Completed(w.st.finalAction.value)), CompletedAs(w.st)))
  {
    var v := Worker(w.owner, CompleteSave, CompletedAs(w.st));
    CheckStep(cfg, token, now, db, w);
    SaveStep(cfg, token, now, db, v);
    DriveOnce(cfg, token, now, db, w, [Go, Go], db, v);
    assert [Go, Go][1..] == [Go] && [Go][1..] == [];
    DriveOnce(cfg, token, now, db, v, [Go], SavedAs(db, v.st, token), AfterSave(v));
  }

  // A decision is saved as such before the run is completed.
  lemma {:induction false} DecisionIsSavedAndCompleted(cfg: Config, token: nat, now: int, db: Db, w: Worker)
    requires w.pc == SaveFinal && w.st.finalAction.Some? && Free(db.run, token, w, now)
    ensures Drive(cfg, token, now, db, w, [Go]) == (SavedAs(db, w.st, token), w.(pc := CompleteGuard))
    ensures
      var (after, v) := Drive(cfg, token, now, db, w, [Go, Go, Go]);
      v.pc == Finished(Completed(w.st.finalAction.value)) && after.lastSaved == Some(v.st) == Some(CompletedAs(w.st))
  {
    var saved, v := SavedAs(db, w.st, token), w.(pc := CompleteGuard);
    SaveStep(cfg, token, now, db, w);
    DriveOnce(cfg, token, now, db, w, [Go, Go, Go], saved, v);
    assert [Go, Go, Go][1..] == [Go, Go] && [Go][1..] == [];
    DriveOnce(cfg, token, now, db, w, [Go], saved, v);
    DecidedCompletes(cfg, token, now, saved, v);
  }

  // A call is saved before its tool is entered.
  lemma {:induction false} CallIsSavedThenEntered(cfg: Config, token: nat, now: int, db: Db, w: Worker)
    requires w.pc == SaveTool && Free(db.run, token, w, now) && w.st.pendingCall.Some? && w.st.pendingStep.Some?
    requires Frugal(cfg.budget, w.st) && w.st.toolCalls < cfg.budget.maxToolCalls
    requires w.st.pendingCall.value.name in cfg.tools && Precheck(cfg.tools[w.st.pendingCall.value.name], w.st.pendingCall.value).None?
    ensures Drive(cfg, token, now, db, w, [Go]).0.lastSaved == Some(w.st)
    ensures
      Drive(cfg, token, now, db, w, [Go, Go])
      == (SavedAs(db, w.st, token), w.(pc := Tool(if cfg.tools[w.st.pendingCall.value.name].sideEffect then Begin else Handler(1))))
  {
    var saved, v := SavedAs(db, w.st, token), w.(pc := ToolGuard);
    SaveStep(cfg, token, now, db, w);
    CheckStep(cfg, token, now, saved, v);
    assert [Go, Go][1..] == [Go] && [Go][1..] == [];
    DriveOnce(cfg, token, now, db, w, [Go, Go], saved, v);
    DriveOnce(cfg, token, now, db, w, [Go], saved, v);
    DriveOnce(cfg, token, now, saved, v, [Go], saved, AfterCheck(cfg, false, v));
  }

  // After a tool call that neither ends the run nor repeats an observation, the state without the call and with
  // its observation is saved, and the model is next; a repeated observation ends the run as stalled.
  lemma {:induction false} ObservedCallGoesOn(cfg: Config, token: nat, now: int, db: Db, w: Worker, def: ToolDef,
      call: ToolCall, result: Obj, replayed: bool)
    requires def.terminal.None? && Free(db.run, token, w, now)
    ensures
      var observed := AfterMove(w, def, call, Returned(result, replayed), Written);
      var seen := map["tool" := JStr(call.name), "result" := JObj(result), "replayed" := JBool(replayed)];
      && observed.st.observations == w.st.observations + [seen] && observed.st.toolCalls == w.st.toolCalls + 1
      && observed.st.pendingCall.None? && observed.st.phase == READY
      && (ObservationAlarm(observed.st.observationPrints).None? ==>
            Drive(cfg, token, now, db, observed, [Go, Go]) == (SavedAs(db, observed.st, token), observed.(pc := Guard)))
      && (ObservationAlarm(observed.st.observationPrints).Some? ==>
            Drive(cfg, token, now, db, observed, [Go, Go, Go]).1.pc == Finished(Ended(LOOP_STALLED)))
  {
    var observed := AfterMove(w, def, call, Returned(result, replayed), Written);
    var stalled := ObservationAlarm(observed.st.observationPrints).Some?;
    assert observed.pc == PostGuard(stalled) && observed.st.fencingToken == w.st.fencingToken && observed.owner == w.owner;
    ChecksAndSaves(cfg, token, now, db, observed, stalled);
  }

  lemma {:induction false} ChecksAndSaves(cfg: Config, token: nat, now: int, db: Db, w: Worker, stalled: bool)
    requires w.pc == PostGuard(stalled) && Free(db.run, token, w, now)
    ensures Drive(cfg, token, now, db, w, [Go, Go]) == (SavedAs(db, w.st, token), AfterSave(w.(pc := PostSave(stalled))))
    ensures stalled ==> Drive(cfg, token, now, db, w, [Go, Go, Go]).1.pc == Finished(Ended(LOOP_STALLED))
  {
    var v, saved := w.(pc := PostSave(stalled)), SavedAs(db, w.st, token);
    CheckStep(cfg, token, now, db, w);
    SaveStep(cfg, token, now, db, v);
    assert [Go, Go, Go][1..] == [Go, Go] && [Go, Go][1..] == [Go] && [Go][1..] == [];
    DriveOnce(cfg, token, now, db, w, [Go, Go], db, v);
    DriveOnce(cfg, token, now, db, v, [Go], saved, AfterSave(v));
    if stalled {
      DriveOnce(cfg, token, now, db, w, [Go, Go, Go], db, v);
      DriveOnce(cfg, token, now, db, v, [Go, Go], saved, AfterSave(v));
      SaveStep(cfg, token, now, saved, AfterSave(v));
      DriveOnce(cfg, token, now, saved, AfterSave(v), [Go], SavedAs(saved, AfterSave(v).st, token), AfterSave(AfterSave(v)));
    }
  }

  lemma {:induction false} TerminalCallDecides(w: Worker, def: ToolDef, call: ToolCall, result: Obj,
      replayed: bool) returns (v: Worker)
    requires def.terminal.Some?
    ensures v == AfterMove(w, def, call, Returned(result, replayed), Written)
    ensures v.pc == PostGuard(false) && v.owner == w.owner && v.st.fencingToken == w.st.fencingToken && v.st.phase == FINAL_PENDING
    ensures v.st.finalAction.Some? && v.st.finalAction.value.decision == def.terminal
  {
    v := AfterMove(w, def, call, Returned(result, replayed), Written);
  }

  lemma {:induction false} ObservedDecisionCompletes(cfg: Config, token: nat, now: int, db: Db, w: Worker)
    requires w.pc == PostGuard(false) && w.st.phase == FINAL_PENDING && w.st.finalAction.Some? && Free(db.run, token, w, now)
    ensures Drive(cfg, token, now, db, w, [Go, Go, Go, Go]).1
            == Worker(w.owner, Finished(Completed(w.st.finalAction.value)), CompletedAs(w.st))
    ensures Drive(cfg, token, now, db, w, [Go, Go, Go, Go]).0.lastSaved == Some(CompletedAs(w.st))
  {
    var saved := SavedAs(db, w.st, token);
    ChecksAndSaves(cfg, token, now, db, w, false);
    DecidedCompletes(cfg, token, now, saved, w.(pc := CompleteGuard));
    DriveBoth(cfg, token, now, db, w, [Go, Go], [Go, Go]);
    assert [Go, Go] + [Go, Go] == [Go, Go, Go, Go];
  }

  // A call that ends the run: its decision is saved and then completed and reported.
  lemma {:induction false} TerminalCallCompletes(cfg: Config, token: nat, now: int, db: Db, w: Worker, def: ToolDef,
      call: ToolCall, result: Obj, replayed: bool)
    requires def.terminal.Some? && Free(db.run, token, w, now)
    ensures
      var observed := AfterMove(w, def, call, Returned(result, replayed), Written);
      var (after, v) := Drive(cfg, token, now, db, observed, [Go, Go, Go, Go]);
      && v.pc.Finished? && v.pc.ending.Completed? && v.pc.ending.action.decision == def.terminal
      && after.lastSaved == Some(v.st)
  {
    var observed := TerminalCallDecides(w, def, call, result, replayed);
    ObservedDecisionCompletes(cfg, token, now, db, observed);
  }

  lemma {:induction false} DriveBoth(cfg: Config, token: nat, now: int, db: Db, w: Worker, a: seq<Choice>,
      b: seq<Choice>)
    ensures
      var (db', w') := Drive(cfg, token, now, db, w, a);
      Drive(cfg, token, now, db, w, a + b) == Drive(cfg, token, now, db', w', b)
    decreases |a|
  {
    if a == [] {
      assert a + b == b;
    } else {
      var (db', w') := Work(cfg, token, now, false, db, w, a[0]);
      DriveBoth(cfg, token, now, db', w', a[1..], b);
      assert (a + b)[1..] == a[1..] + b;
      DriveOnce(cfg, token, now, db, w, a + b, db', w');
    }
  }

  // Where a worker that holds the lease goes on from what was saved last: at the model with nothing in flight, at
  // the pending call, at the completion of a decision, or at its end.
  lemma {:induction false} LoadGoesOn(cfg: Config, token: nat, now: int, db: Db, w: Worker)
    requires w.pc == Load && DbInv(cfg, db) && FencePasses(db.run, token, None, now)
    ensures
      var v := Work(cfg, token, now, false, db, w, Go).1;
      if db.lastSaved.None? then v.pc == Guard && v.st.observations == [cfg.firstObservation]
      else
        var r := db.lastSaved.value;
        && SameCounters(v.st, r) && v.st.observations == r.observations && v.st.fencingToken == token
        && match v.pc
           case Guard => !Frozen(r) && r.pendingCall.None?
           case ToolGuard => !Frozen(r) && v.st.pendingCall == r.pendingCall && r.pendingCall.Some?
           case CompleteGuard => r.phase == FINAL_PENDING && v.st.finalAction == r.finalAction
           case Finished(ending) =>
             && r.phase == TERMINATED && Frozen(r)
             && (if r.terminationReason == Some(COMPLETED) then r.finalAction.Some? && ending == Completed(r.finalAction.value)
                 else Some(ending) == if r.terminationReason.Some? then Some(Ended(r.terminationReason.value)) else None)
           case _ => false
  {
    LoadIsLastSaved(db);
  }
}
