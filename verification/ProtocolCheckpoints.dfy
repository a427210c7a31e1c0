// The protocol and app/harness/schemas.py together: every checkpoint a worker saves passes the validators,
// and loading it gives back the saved state.
module ProtocolCheckpoints {
  import opened Wrappers
  import opened Contracts
  import opened LeaseSpec
  import opened StoreSpec
  import opened BudgetSpec
  import opened ToolSpec
  import opened RunnerSpec
  import opened Protocol
  import opened ProtocolInvariant
  import opened ProtocolTheorems
  import opened SchemaSpec
  import opened PayloadSpec

  lemma {:induction false} SanePassesValidators(cfg: Config, st: RuntimeState)
    requires Sane(cfg, st) && cfg.budget.maxModelCalls >= 1
    ensures Acceptable(st)
  {
  }

  // At each of the runner's save points the state of the lease holder serializes.
  lemma {:induction false} EverySavePasses(cfg: Config, s: System)
    requires Registered(cfg) && Reachable(cfg, s) && cfg.budget.maxModelCalls >= 1
    ensures
      var token := s.db.run.token;
      token in s.workers && Saves(s.workers[token].pc) ==> Serialize(s.workers[token].st).Some?
    ensures s.db.lastSaved.Some? ==> Serialize(s.db.lastSaved.value).Some?
  {
    ReachableHasInv(cfg, s);
    if s.db.lastSaved.Some? { SanePassesValidators(cfg, s.db.lastSaved.value); }
    if s.db.run.token in s.workers && Saves(s.workers[s.db.run.token].pc) {
      SanePassesValidators(cfg, s.workers[s.db.run.token].st);
    }
  }

  // ---- Error codes -------------------------------------------------------------------------

  // A text that is no code of its own in the model.
  ghost predicate PlainText(text: string) {
    && text !in {"MODEL_UNAVAILABLE", "TOOL_TIMEOUT", "TOOL_RATE_LIMITED", "TOOL_UPSTREAM_ERROR", "TOOL_OUTCOME_UNKNOWN"}
    && forall r :: BudgetReason(r) ==> ReasonText(r) != text
  }

  lemma {:induction false} PlainCodesAreCanonical(text: string)
    requires PlainText(text)
    ensures Canonical(CodeOther(text))
  {
    if ParseReason(text).Some? { FindReasonIsRight(text, |REASONS|); }
  }

  lemma {:induction false} NotABudget(text: string)
    requires |text| >= 6
    requires forall r :: BudgetReason(r) ==> (|text|, text[0], text[5]) != Signature(r)
    ensures forall r :: BudgetReason(r) ==> ReasonText(r) != text
  {
    forall r | BudgetReason(r) ensures ReasonText(r) != text { TextHasSignature(r); }
  }

  lemma {:induction false} LastingCodesArePlain()
    ensures PlainText("RUN_CANCELLED") && PlainText("RuntimeError") && PlainText("STRUCTURED_OUTPUT_ERROR")
  {
    assert |"MODEL_UNAVAILABLE"| == 17 && |"TOOL_TIMEOUT"| == 12 && |"TOOL_RATE_LIMITED"| == 17;
    assert |"TOOL_UPSTREAM_ERROR"| == 19 && |"TOOL_OUTCOME_UNKNOWN"| == 20;
    assert |"RUN_CANCELLED"| == 13 && |"RuntimeError"| == 12 && |"STRUCTURED_OUTPUT_ERROR"| == 23;
    assert "RuntimeError"[1] == 'u' && "TOOL_TIMEOUT"[1] == 'O';
    NotABudget("RUN_CANCELLED");
    NotABudget("RuntimeError");
    NotABudget("STRUCTURED_OUTPUT_ERROR");
  }

  lemma {:induction false} ToolCodesArePlain()
    ensures PlainText("TOOL_TRANSIENT_ERROR") && PlainText("TOOL_BUSINESS_ERROR") && PlainText("TOOL_VALIDATION_FAILED")
    ensures PlainText("UNKNOWN_TOOL") && PlainText("TOOL_PERMISSION_DENIED")
  {
    assert |"MODEL_UNAVAILABLE"| == 17 && |"TOOL_TIMEOUT"| == 12 && |"TOOL_RATE_LIMITED"| == 17;
    assert |"TOOL_UPSTREAM_ERROR"| == 19 && |"TOOL_OUTCOME_UNKNOWN"| == 20;
    assert |"TOOL_TRANSIENT_ERROR"| == 20 && |"TOOL_BUSINESS_ERROR"| == 19 && |"TOOL_VALIDATION_FAILED"| == 22;
    assert |"UNKNOWN_TOOL"| == 12 && |"TOOL_PERMISSION_DENIED"| == 22;
    assert "TOOL_TRANSIENT_ERROR"[5] == 'T' && "TOOL_OUTCOME_UNKNOWN"[5] == 'O';
    assert "TOOL_BUSINESS_ERROR"[5] == 'B' && "TOOL_UPSTREAM_ERROR"[5] == 'U';
    assert "UNKNOWN_TOOL"[0] == 'U' && "TOOL_TIMEOUT"[0] == 'T';
    NotABudget("TOOL_TRANSIENT_ERROR");
    NotABudget("TOOL_BUSINESS_ERROR");
    NotABudget("TOOL_VALIDATION_FAILED");
    NotABudget("UNKNOWN_TOOL");
    NotABudget("TOOL_PERMISSION_DENIED");
  }

  lemma {:induction false} ToolErrorsAreCanonical(e: ToolError)
    ensures Canonical(e.Code())
  {
    ToolCodesArePlain();
    match e
    case ToolTimeout => ReopeningCodesAreCanonical(CodeToolTimeout);
    case ToolRateLimited => ReopeningCodesAreCanonical(CodeToolRateLimited);
    case ToolUpstream => ReopeningCodesAreCanonical(CodeToolUpstream);
    case ToolTransient => PlainCodesAreCanonical("TOOL_TRANSIENT_ERROR");
    case ToolBusiness => PlainCodesAreCanonical("TOOL_BUSINESS_ERROR");
    case ToolValidation => PlainCodesAreCanonical("TOOL_VALIDATION_FAILED");
    case UnknownTool => PlainCodesAreCanonical("UNKNOWN_TOOL");
    case ToolPermission => PlainCodesAreCanonical("TOOL_PERMISSION_DENIED");
    case ToolOutcomeUnknown => ReopeningCodesAreCanonical(CodeToolOutcomeUnknown);
  }

  lemma {:induction false} OverBudgetIsCanonical(w: Worker, reason: TerminationReason)
    requires BudgetReason(reason)
    ensures CanonicalError(OverBudget(w, reason).st)
  {
    BudgetCodesAreCanonical(reason);
  }

  ghost predicate PlainTrace(trace: TraceWrite) { trace.WriteFailed? ==> PlainText(trace.exceptionName) }

  // An exception's class name is no code.
  ghost predicate PlainFault(ch: Choice) {
    && (ch.Fault? ==> PlainText(ch.exceptionName))
    && (ch.ModelReply? || ch.ModelFailure? || ch.ToolAnswer? ==> PlainTrace(ch.trace))
  }

  lemma {:induction false} TraceIsCanonical(w: Worker, trace: TraceWrite, onward: Worker)
    requires CanonicalError(w.st) && PlainTrace(trace) && CanonicalError(onward.st)
    ensures CanonicalError(AfterTrace(w, trace, onward).st)
  {
    if trace.WriteFailed? { PlainCodesAreCanonical(trace.exceptionName); }
  }

  lemma {:induction false} ModelWorkIsCanonical(cfg: Config, timeUp: bool, w: Worker, ch: Choice)
    requires CanonicalError(w.st) && PlainFault(ch)
    ensures CanonicalError(ModelWork(cfg, timeUp, w, ch).st)
  {
    if ch.ModelReply? && ParsedAction(ch.result.action) {
      ReplyIsCanonical(cfg, timeUp, w, ch.result, ch.trace);
    } else if ch.ModelFailure? {
      FailureIsCanonical(w, ch.structured, ch.attempts, ch.trace);
    }
  }

  lemma {:induction false} FailureIsCanonical(w: Worker, structured: bool, attempts: seq<ModelAttempt>,
      trace: TraceWrite)
    requires CanonicalError(w.st) && PlainTrace(trace)
    ensures CanonicalError(OnModelFailure(w, structured, attempts, trace).st)
  {
    LastingCodesArePlain();
    PlainCodesAreCanonical("STRUCTURED_OUTPUT_ERROR");
    ReopeningCodesAreCanonical(CodeModelUnavailable);
    if trace.WriteFailed? { PlainCodesAreCanonical(trace.exceptionName); }
  }

  lemma {:induction false} ReplyIsCanonical(cfg: Config, timeUp: bool, w: Worker, r: ModelResult, trace: TraceWrite)
    requires CanonicalError(w.st) && PlainTrace(trace)
    ensures CanonicalError(OnModelReply(cfg, timeUp, w, r, trace).st)
  {
    var counted := w.(st := AfterModel(w.st, r));
    var over := CheckAfterModel(cfg.budget, counted.st, timeUp);
    var action := Keys.BindIdempotency(r.action, cfg.identity.runId, counted.st.loopCount);
    if over.Some? {
      OverBudgetIsCanonical(counted, over.value);
    } else {
      if action.toolCall.Some? { ToolCallIsCanonical(cfg, timeUp, counted, action.toolCall.value); }
      TraceIsCanonical(counted, trace, OnAction(cfg, timeUp, counted, action));
    }
  }

  lemma {:induction false} ToolCallIsCanonical(cfg: Config, timeUp: bool, w: Worker, call: ToolCall)
    requires CanonicalError(w.st)
    ensures CanonicalError(OnToolCall(cfg, timeUp, w, call).st)
  {
    var st := w.st.(actionPrints := StallSpec.Window(w.st.actionPrints + [StallSpec.ActionFingerprint(call)]));
    var over := CheckBeforeTool(cfg.budget, st, timeUp);
    if over.Some? { OverBudgetIsCanonical(w.(st := st), over.value); }
  }

  lemma {:induction false} CheckIsCanonical(cfg: Config, db: Db, token: nat, now: int, timeUp: bool, w: Worker)
    requires CanonicalError(w.st)
    ensures CanonicalError(IfActive(db, token, now, w, AfterCheck(cfg, timeUp, w)).st)
  {
    AfterCheckIsCanonical(cfg, timeUp, w);
    ActiveIsCanonical(db, token, now, w, AfterCheck(cfg, timeUp, w));
  }

  lemma {:induction false} ActiveIsCanonical(db: Db, token: nat, now: int, w: Worker, onward: Worker)
    requires CanonicalError(w.st) && CanonicalError(onward.st)
    ensures CanonicalError(IfActive(db, token, now, w, onward).st)
  {
    LastingCodesArePlain();
    PlainCodesAreCanonical("RUN_CANCELLED");
  }

  lemma {:induction false} AfterCheckIsCanonical(cfg: Config, timeUp: bool, w: Worker)
    requires CanonicalError(w.st)
    ensures CanonicalError(AfterCheck(cfg, timeUp, w).st)
  {
    if w.pc.Guard? {
      var over := CheckBeforeModel(cfg.budget, w.st, timeUp);
      if over.Some? { OverBudgetIsCanonical(w, over.value); }
    } else if w.pc.ToolGuard? {
      EnterToolIsCanonical(cfg, timeUp, w);
    }
  }

  lemma {:induction false} EnterToolIsCanonical(cfg: Config, timeUp: bool, w: Worker)
    requires CanonicalError(w.st)
    ensures CanonicalError(EnterTool(cfg, timeUp, w).st)
  {
    LastingCodesArePlain();
    PlainCodesAreCanonical("RuntimeError");
    ToolErrorsAreCanonical(UnknownTool);
    var over := CheckBeforeTool(cfg.budget, w.st, timeUp);
    if over.Some? { OverBudgetIsCanonical(w, over.value); }
    if w.st.pendingCall.Some? && w.st.pendingCall.value.name in cfg.tools {
      var refused := Precheck(cfg.tools[w.st.pendingCall.value.name], w.st.pendingCall.value);
      if refused.Some? { ToolErrorsAreCanonical(refused.value); }
    }
  }

  lemma {:induction false} ToolWorkIsCanonical(cfg: Config, token: nat, now: int, db: Db, w: Worker, at: ToolPc,
      o: Outcome, trace: TraceWrite)
    requires CanonicalError(w.st) && PlainTrace(trace)
    ensures CanonicalError(ToolWork(cfg, token, now, db, w, at, o, trace).1.st)
  {
    if w.st.pendingCall.Some? && w.st.pendingCall.value.name in cfg.tools {
      var call := w.st.pendingCall.value;
      var def := cfg.tools[call.name];
      MoveIsCanonical(w, def, call, ToolStep(def, db, token, now, call, BoundArguments(call, w.st.observations), at, o).1, trace);
    }
  }

  lemma {:induction false} MoveIsCanonical(w: Worker, def: ToolDef, call: ToolCall, move: ToolMove, trace: TraceWrite)
    requires CanonicalError(w.st) && PlainTrace(trace)
    ensures CanonicalError(AfterMove(w, def, call, move, trace).st)
  {
    if move.Raised? { ToolErrorsAreCanonical(move.error); }
    if trace.WriteFailed? { PlainCodesAreCanonical(trace.exceptionName); }
  }

  lemma {:induction false} LoadIsCanonical(cfg: Config, db: Db, token: nat, now: int, w: Worker)
    requires CanonicalError(w.st) && TableOK(db) && (db.lastSaved.Some? ==> CanonicalError(db.lastSaved.value))
    ensures CanonicalError(LoadWork(cfg, token, now, db, w).st)
  {
    LoadIsLastSaved(db);
  }

  lemma {:induction false} WorkIsCanonical(cfg: Config, token: nat, now: int, timeUp: bool, db: Db, w: Worker,
      ch: Choice)
    requires CanonicalError(w.st) && TableOK(db) && (db.lastSaved.Some? ==> CanonicalError(db.lastSaved.value)) && PlainFault(ch)
    ensures CanonicalError(Work(cfg, token, now, timeUp, db, w, ch).1.st)
  {
    if w.pc.Finished? {
    } else if ch.Fault? {
      PlainCodesAreCanonical(ch.exceptionName);
    } else if w.pc.Load? {
      LoadIsCanonical(cfg, db, token, now, w);
    } else if w.pc.Model? {
      ModelWorkIsCanonical(cfg, timeUp, w, ch);
    } else if Checks(w.pc) {
      CheckIsCanonical(cfg, db, token, now, timeUp, w);
    } else if w.pc.Tool? && ch.ToolAnswer? {
      ToolWorkIsCanonical(cfg, token, now, db, w, w.pc.at, ch.outcome, ch.trace);
    }
  }

  ghost predicate AllCanonical(s: System) {
    && (s.db.lastSaved.Some? ==> CanonicalError(s.db.lastSaved.value))
    && forall t | t in s.workers :: CanonicalError(s.workers[t].st)
  }

  ghost predicate PlainFaults(events: seq<Event>) { forall i | 0 <= i < |events| :: events[i].Step? ==> PlainFault(events[i].choice) }

  lemma {:induction false} EventKeepsCanonical(cfg: Config, s: System, e: Event)
    requires AllCanonical(s) && TableOK(s.db) && (e.Step? ==> PlainFault(e.choice))
    ensures AllCanonical(Advance(cfg, s, e))
  {
    if e.Step? && e.token in s.workers {
      WorkIsCanonical(cfg, e.token, e.now, e.timeUp, s.db, s.workers[e.token], e.choice);
      WorkSavesItsState(cfg, e.token, e.now, e.timeUp, s.db, s.workers[e.token], e.choice);
    }
  }

  lemma {:induction false} RunIsCanonical(cfg: Config, s: System, events: seq<Event>)
    requires Registered(cfg) && Initial(s) && PlainFaults(events)
    ensures AllCanonical(RunAll(cfg, s, events))
    decreases |events|
  {
    if events != [] {
      RunIsCanonical(cfg, s, events[..|events| - 1]);
      ReachableInv(cfg, s, events[..|events| - 1]);
      EventKeepsCanonical(cfg, RunAll(cfg, s, events[..|events| - 1]), events[|events| - 1]);
    }
  }

  // Over every run: what `load_latest` hands to the next worker is exactly what deserializing the payload
  // of the last save gives.
  lemma {:induction false} CheckpointsSurviveSerialization(cfg: Config, s: System, events: seq<Event>)
    requires Registered(cfg) && Initial(s) && PlainFaults(events) && cfg.budget.maxModelCalls >= 1
    ensures
      var db := RunAll(cfg, s, events).db;
      db.lastSaved.Some? ==>
        && Serialize(db.lastSaved.value).Some?
        && Deserialize(Serialize(db.lastSaved.value).value) == LoadLatest(db)
  {
    var end := RunAll(cfg, s, events);
    assert Reachable(cfg, end);
    RunIsCanonical(cfg, s, events);
    TableIsLastSavedRegister(cfg, end);
    EverySavePasses(cfg, end);
    if end.db.lastSaved.Some? { CheckpointRoundTrip(end.db.lastSaved.value); }
  }
}
