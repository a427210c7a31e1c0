// Every event keeps the invariant of the crash/resume protocol.
module ProtocolInvariant {
  import opened Wrappers
  import opened Contracts
  import opened LeaseSpec
  import opened StoreSpec
  import opened BudgetSpec
  import opened StallSpec
  import opened Keys
  import opened ToolSpec
  import opened RunnerSpec
  import opened Protocol

  // ---- Saving ------------------------------------------------------------------------------

  // What a save of `st` must respect about the rows that exist.
  ghost predicate Savable(cfg: Config, db: Db, st: RuntimeState) {
    && Sane(cfg, st) && LastStep(db.lastSaved) <= st.loopCount
    && (WritesAreTerminal(cfg) ==>
          && (Open(Some(st)) ==> db.proposals == map[])
          && (InFlight(Some(st)) && !IsWrite(cfg, st.pendingCall.value) ==> db.proposals == map[]))
    && (InFlight(Some(st)) ==> InFlightOK(cfg, db, st))
  }

  function Saved(db: Db, token: nat, st: RuntimeState): Db {
    db.(checkpoints := db.checkpoints[st.loopCount := RowOf(st, token)], lastSaved := Some(st))
  }

  lemma {:induction false} SaveKeepsDb(cfg: Config, db: Db, token: nat, st: RuntimeState)
    ensures DbInv(cfg, db) && Savable(cfg, db, st) ==> DbInv(cfg, Saved(db, token, st))
  {
    if DbInv(cfg, db) && Savable(cfg, db, st) {
      var db' := Saved(db, token, st);
      assert IsLatest(db'.checkpoints, st.loopCount);
      assert LedgerOK(db') by {
        forall lk | SucceededRow(db', lk) ensures RightResult(db', lk.key, db'.ledger[lk].result.value) && db'.ledger[lk].result.Some? {
          assert SucceededRow(db, lk);
        }
      }
    }
  }

  lemma {:induction false} SaveToolSavable(cfg: Config, db: Db, st: RuntimeState)
    requires Registered(cfg) && DbInv(cfg, db) && Sane(cfg, st)
    requires Open(db.lastSaved) && LastStep(db.lastSaved) < st.loopCount && st.phase == TOOL_PENDING
    ensures Savable(cfg, db, st)
  {
    var call := st.pendingCall.value;
    if IsWrite(cfg, call) {
      assert call.key == Some(BoundKey(cfg.identity.runId, st.loopCount, call.name));
    }
  }

  lemma {:induction false} TerminationSavable(cfg: Config, db: Db, st: RuntimeState)
    requires DbInv(cfg, db) && Sane(cfg, st) && MayTerminate(st, db.lastSaved)
    ensures Savable(cfg, db, st)
  {
  }

  // ---- Rows --------------------------------------------------------------------------------

  lemma {:induction false} LedgerWriteKeepsDb(cfg: Config, db: Db, lk: LedgerKey, r: Record)
    requires Registered(cfg) && DbInv(cfg, db) && InFlight(db.lastSaved)
    requires IsWrite(cfg, db.lastSaved.value.pendingCall.value) && db.lastSaved.value.pendingCall.value.key.Some?
    requires lk == LedgerKey(db.lastSaved.value.pendingCall.value.name, db.lastSaved.value.pendingCall.value.key.value)
    requires r.digest == BoundArguments(db.lastSaved.value.pendingCall.value, db.lastSaved.value.observations)
    requires r.status == SUCCEEDED ==> r.result.Some? && RightResult(db, lk.key, r.result.value)
    ensures DbInv(cfg, db.(ledger := db.ledger[lk := r]))
  {
    var db' := db.(ledger := db.ledger[lk := r]);
    var st := db.lastSaved.value;
    assert BoundAt(cfg, st.pendingCall.value, st.loopCount);
    forall n: nat, name, tool | n > st.loopCount
      ensures LedgerKey(tool, BoundKey(cfg.identity.runId, n, name)) !in db'.ledger
    {
      if LedgerKey(tool, BoundKey(cfg.identity.runId, n, name)) == lk {
        BoundKeyInjective(cfg.identity.runId, n, st.loopCount, name, st.pendingCall.value.name);
      }
    }
    assert LedgerOK(db') by {
      forall k | SucceededRow(db', k) ensures db'.ledger[k].result.Some? && RightResult(db', k.key, db'.ledger[k].result.value) {
        if k != lk { assert SucceededRow(db, k); }
      }
    }
  }

  lemma {:induction false} ProposeKeepsDb(cfg: Config, db: Db, freshId: string)
    requires Registered(cfg) && DbInv(cfg, db) && InFlight(db.lastSaved)
    requires var call := db.lastSaved.value.pendingCall.value; IsWrite(cfg, call) && call.key.Some?
    ensures var call := db.lastSaved.value.pendingCall.value;
            DbInv(cfg, ProposeTxn(db, call.name, call.key.value, freshId))
  {
    var st := db.lastSaved.value;
    var call := st.pendingCall.value;
    var key := call.key.value;
    var db' := ProposeTxn(db, call.name, key, freshId);
    if key !in db.proposals {
      var runId := cfg.identity.runId;
      assert key == BoundKey(runId, st.loopCount, call.name);
      forall n: nat, name | BoundKey(runId, n, name) == key ensures n == st.loopCount && name == call.name {
        BoundKeyInjective(runId, n, st.loopCount, name, call.name);
      }
      assert LedgerOK(db') by {
        forall lk | SucceededRow(db', lk) ensures db'.ledger[lk].result.Some? && RightResult(db', lk.key, db'.ledger[lk].result.value) {
          assert SucceededRow(db, lk);
        }
      }
      assert FutureKeysFree(cfg, db', LastStep(db'.lastSaved));
      assert OnePerStep(cfg, db');
    }
  }

  // The run row and the proposals' statuses do not matter to the invariant.
  predicate SameRows(a: Db, b: Db) {
    && a.checkpoints == b.checkpoints && a.ledger == b.ledger && a.lastSaved == b.lastSaved
    && a.proposals.Keys == b.proposals.Keys
    && forall k | k in a.proposals :: a.proposals[k].id == b.proposals[k].id && a.proposals[k].tool == b.proposals[k].tool
  }

  lemma {:induction false} SameRowsKeepDb(cfg: Config, a: Db, b: Db)
    requires DbInv(cfg, a) && SameRows(a, b)
    ensures DbInv(cfg, b)
  {
    assert forall k :: k in a.proposals <==> k in b.proposals;
    assert LedgerOK(b) by {
      forall lk | SucceededRow(b, lk) ensures b.ledger[lk].result.Some? && RightResult(b, lk.key, b.ledger[lk].result.value) {
        assert SucceededRow(a, lk);
      }
    }
    assert a.proposals == map[] ==> b.proposals == map[] by {
      if a.proposals == map[] { assert b.proposals.Keys == {}; }
    }
  }

  lemma {:induction false} SameRowsKeepHolder(cfg: Config, a: Db, b: Db, token: nat, w: Worker)
    requires HolderInv(cfg, a, token, w) && SameRows(a, b)
    ensures HolderInv(cfg, b, token, w)
  {
    assert forall k :: k in a.proposals <==> k in b.proposals;
  }

  // ---- The holder's steps ------------------------------------------------------------------

  predicate IsCompleted(last: Option<RuntimeState>) {
    last.Some? && last.value.phase == TERMINATED && last.value.terminationReason == Some(COMPLETED)
  }

  // What one step of the current holder leaves behind.
  ghost predicate StepOK(cfg: Config, db: Db, token: nat, db': Db, w': Worker) {
    && db'.run == db.run
    && DbInv(cfg, db') && HolderInv(cfg, db', token, w') && ReportOK(db', w')
    && (IsCompleted(db.lastSaved) ==> db'.lastSaved == db.lastSaved)
  }

  predicate Running(w: Worker) { !w.pc.Load? && !w.pc.TermSave? && !w.pc.Finished? }

  // Ending with a code that no resume reopens is possible everywhere.
  lemma {:induction false} FailForGood(cfg: Config, db: Db, token: nat, w: Worker, reason: TerminationReason,
      code: ErrorCode)
    requires reason != COMPLETED && !RetryableCode(code)
    ensures HolderInv(cfg, db, token, w) && DbInv(cfg, db) && Running(w) ==>
              HolderInv(cfg, db, token, Fail(w, reason, code)) && ReportOK(db, Fail(w, reason, code))
  {
    if HolderInv(cfg, db, token, w) && DbInv(cfg, db) && Running(w) { EndForGood(cfg, db, token, w, reason, code); }
  }

  lemma {:induction false} EndForGood(cfg: Config, db: Db, token: nat, w: Worker, reason: TerminationReason,
      code: ErrorCode)
    requires HolderInv(cfg, db, token, w) && DbInv(cfg, db) && Running(w)
    requires reason != COMPLETED && !RetryableCode(code)
    ensures HolderInv(cfg, db, token, Fail(w, reason, code)) && ReportOK(db, Fail(w, reason, code))
  {
  }

  lemma {:induction false} ActiveStep(cfg: Config, db: Db, token: nat, now: int, w: Worker, onward: Worker)
    requires HolderInv(cfg, db, token, w) && DbInv(cfg, db) && Running(w)
    requires HolderInv(cfg, db, token, onward) && ReportOK(db, onward)
    ensures StepOK(cfg, db, token, db, IfActive(db, token, now, w, onward))
  {
    FailForGood(cfg, db, token, w, CANCELLED, CodeOther("RUN_CANCELLED"));
  }

  lemma {:induction false} LoadIsLastSaved(db: Db)
    requires TableOK(db)
    ensures LoadLatest(db) == (if db.lastSaved.None? then None else Some(db.lastSaved.value.(resumed := true)))
  {
    if db.lastSaved.Some? {
      assert db.checkpoints != map[] by { assert db.lastSaved.value.loopCount in db.checkpoints; }
      LatestExists(db.checkpoints);
      forall k | IsLatest(db.checkpoints, k) ensures k == db.lastSaved.value.loopCount { }
    }
  }

  lemma {:induction false} LoadStep(cfg: Config, db: Db, token: nat, now: int, w: Worker)
    requires DbInv(cfg, db)
    ensures StepOK(cfg, db, token, db, LoadWork(cfg, token, now, db, w))
  {
    LoadIsLastSaved(db);
    if db.lastSaved.Some? {
      var r := db.lastSaved.value;
      var st := Resume(cfg, r.(resumed := true), token);
      assert Mirrors(st, r);
      assert Sane(cfg, st);
    }
  }

  // The state after the model's answer has been counted, before the action is looked at.
  ghost predicate Counted(cfg: Config, db: Db, w: Worker) {
    && Sane(cfg, w.st) && w.st.phase == READY && Open(db.lastSaved) && LastStep(db.lastSaved) < w.st.loopCount
    && !w.pc.Load? && !w.pc.Finished?
  }

  lemma {:induction false} EndFromCounted(cfg: Config, db: Db, token: nat, w: Worker, reason: TerminationReason)
    requires DbInv(cfg, db) && Counted(cfg, db, w) && reason != COMPLETED
    ensures StepOK(cfg, db, token, db, Terminate(w, reason)) && StepOK(cfg, db, token, db, OverBudget(w, reason))
  {
  }

  lemma {:induction false} TraceFromCounted(cfg: Config, db: Db, token: nat, w: Worker, trace: TraceWrite,
      onward: Worker)
    requires DbInv(cfg, db) && Counted(cfg, db, w) && StepOK(cfg, db, token, db, onward)
    ensures StepOK(cfg, db, token, db, AfterTrace(w, trace, onward))
  {
  }

  lemma {:induction false} ToolCallStep(cfg: Config, db: Db, token: nat, timeUp: bool, w: Worker, call: ToolCall)
    requires DbInv(cfg, db) && Counted(cfg, db, w) && w.st.toolCalls < w.st.loopCount
    requires WithinLimits(cfg, w.st) && BoundAt(cfg, call, w.st.loopCount)
    ensures StepOK(cfg, db, token, db, OnToolCall(cfg, timeUp, w, call))
  {
    var st := w.st.(actionPrints := Window(w.st.actionPrints + [ActionFingerprint(call)]));
    var alarm := ActionAlarm(st.actionPrints);
    var over := CheckBeforeTool(cfg.budget, st, timeUp);
    assert Counted(cfg, db, w.(st := st));
    if alarm.Some? {
      assert Sane(cfg, st.(stallReason := alarm));
    } else if over.Some? {
      EndFromCounted(cfg, db, token, w.(st := st), over.value);
    } else {
      assert Sane(cfg, st.(pendingCall := Some(call), pendingStep := Some(StepId(st)), phase := TOOL_PENDING));
    }
  }

  lemma {:induction false} ModelReplyStep(cfg: Config, db: Db, token: nat, timeUp: bool, w: Worker, r: ModelResult,
      trace: TraceWrite)
    requires DbInv(cfg, db) && HolderInv(cfg, db, token, w) && w.pc.Model? && ParsedAction(r.action)
    ensures StepOK(cfg, db, token, db, OnModelReply(cfg, timeUp, w, r, trace))
  {
    var w1 := w.(st := AfterModel(w.st, r));
    assert Counted(cfg, db, w1);
    var over := CheckAfterModel(cfg.budget, w1.st, timeUp);
    if over.Some? {
      EndFromCounted(cfg, db, token, w1, over.value);
    } else {
      var action := BindIdempotency(r.action, cfg.identity.runId, w1.st.loopCount);
      ActionStep(cfg, db, token, timeUp, w1, action);
      TraceFromCounted(cfg, db, token, w1, trace, OnAction(cfg, timeUp, w1, action));
    }
  }

  lemma {:induction false} ActionStep(cfg: Config, db: Db, token: nat, timeUp: bool, w: Worker, action: ModelAction)
    requires DbInv(cfg, db) && Counted(cfg, db, w) && WithinLimits(cfg, w.st) && w.st.toolCalls < w.st.loopCount
    requires ParsedAction(action) && (action.toolCall.Some? ==> BoundAt(cfg, action.toolCall.value, w.st.loopCount))
    ensures StepOK(cfg, db, token, db, OnAction(cfg, timeUp, w, action))
  {
    if action.finish {
      FinishStep(cfg, db, token, w, action);
    } else if action.toolCall.None? {
      EndFromCounted(cfg, db, token, w, INVALID_ACTION);
    } else {
      ToolCallStep(cfg, db, token, timeUp, w, action.toolCall.value);
    }
  }

  lemma {:induction false} FinishStep(cfg: Config, db: Db, token: nat, w: Worker, action: ModelAction)
    requires DbInv(cfg, db) && Counted(cfg, db, w) && WithinLimits(cfg, w.st) && action.finish && ParsedAction(action)
    ensures StepOK(cfg, db, token, db, OnFinish(w, action))
  {
    EndFromCounted(cfg, db, token, w, INVALID_ACTION);
  }

  lemma {:induction false} ModelFailureStep(cfg: Config, db: Db, token: nat, w: Worker, structured: bool,
      attempts: seq<ModelAttempt>, trace: TraceWrite)
    requires DbInv(cfg, db) && HolderInv(cfg, db, token, w) && w.pc.Model?
    ensures StepOK(cfg, db, token, db, OnModelFailure(w, structured, attempts, trace))
  {
    var failed := w.(st := AfterModelFailure(w.st, structured, attempts));
    assert Counted(cfg, db, failed);
    FailFromCounted(cfg, db, token, failed);
    var onward := if structured
                  then Fail(failed, TerminationReason.STRUCTURED_OUTPUT_ERROR, CodeOther("STRUCTURED_OUTPUT_ERROR"))
                  else Fail(failed, TerminationReason.MODEL_UNAVAILABLE, CodeModelUnavailable);
    TraceFromCounted(cfg, db, token, failed, trace, onward);
  }

  lemma {:induction false} FailFromCounted(cfg: Config, db: Db, token: nat, w: Worker)
    requires DbInv(cfg, db) && Counted(cfg, db, w)
    ensures StepOK(cfg, db, token, db, Fail(w, TerminationReason.STRUCTURED_OUTPUT_ERROR, CodeOther("STRUCTURED_OUTPUT_ERROR")))
    ensures StepOK(cfg, db, token, db, Fail(w, TerminationReason.MODEL_UNAVAILABLE, CodeModelUnavailable))
  {
  }

  lemma {:induction false} EnterToolStep(cfg: Config, db: Db, token: nat, timeUp: bool, w: Worker)
    requires Registered(cfg) && DbInv(cfg, db) && HolderInv(cfg, db, token, w) && w.pc.ToolGuard?
    ensures HolderInv(cfg, db, token, EnterTool(cfg, timeUp, w)) && ReportOK(db, EnterTool(cfg, timeUp, w))
  {
    var call := w.st.pendingCall.value;
    var over := CheckBeforeTool(cfg.budget, w.st, timeUp);
    if over.Some? {
      FailForGood(cfg, db, token, w, over.value, CodeBudget(over.value));
    } else if call.name !in cfg.tools {
      FailForGood(cfg, db, token, w, UNKNOWN_TOOL, UnknownTool.Code());
    } else {
      ResolvedToolStep(cfg, db, token, w);
    }
  }

  // The call names a known tool within the budget.
  lemma {:induction false} ResolvedToolStep(cfg: Config, db: Db, token: nat, w: Worker)
    requires w.pc.ToolGuard? && w.st.pendingCall.Some? && w.st.pendingCall.value.name in cfg.tools
    requires w.st.toolCalls < cfg.budget.maxToolCalls
    ensures
      var def := cfg.tools[w.st.pendingCall.value.name];
      var refused := Precheck(def, w.st.pendingCall.value);
      var w' := if refused.Some? then Fail(w, refused.value.Reason(), refused.value.Code())
                else w.(pc := Tool(if def.sideEffect then Begin else Handler(1)));
      DbInv(cfg, db) && HolderInv(cfg, db, token, w) ==> HolderInv(cfg, db, token, w') && ReportOK(db, w')
  {
    var def := cfg.tools[w.st.pendingCall.value.name];
    var refused := Precheck(def, w.st.pendingCall.value);
    if refused.Some? {
      FailForGood(cfg, db, token, w, refused.value.Reason(), refused.value.Code());
    } else if HolderInv(cfg, db, token, w) {
      assert w.st.phase == TOOL_PENDING;
    }
  }

  lemma {:induction false} AfterToolStep(cfg: Config, db: Db, token: nat, w: Worker, result: Obj, replayed: bool)
    requires Registered(cfg) && InTool(cfg, w.st, db.lastSaved)
    ensures var call := w.st.pendingCall.value;
            var w' := AfterTool(w, cfg.tools[call.name], call, result, replayed);
            HolderInv(cfg, db, token, w') && ReportOK(db, w')
  {
    var call := w.st.pendingCall.value;
    var def := cfg.tools[call.name];
    var w' := AfterTool(w, def, call, result, replayed);
    assert w.st.phase == TOOL_PENDING;
    if def.terminal.Some? {
      assert ValidProposalArgs(call.arguments);
      assert GoodFinal(w'.st.finalAction.value);
    }
    assert Sane(cfg, w'.st);
  }

  lemma {:induction false} TraceStep(cfg: Config, db: Db, token: nat, w: Worker, result: Obj, replayed: bool,
      trace: TraceWrite, onward: Worker)
    requires InTool(cfg, w.st, db.lastSaved) && HolderInv(cfg, db, token, onward) && ReportOK(db, onward)
    ensures var call := w.st.pendingCall.value;
            var w' := AfterTrace(w.(st := Executed(w.st, call, result, replayed)), trace, onward);
            HolderInv(cfg, db, token, w') && ReportOK(db, w')
  {
    assert w.st.phase == TOOL_PENDING;
  }

  lemma {:induction false} RaisedStep(cfg: Config, db: Db, token: nat, w: Worker, e: ToolError)
    requires InTool(cfg, w.st, db.lastSaved)
    ensures HolderInv(cfg, db, token, Fail(w, e.Reason(), e.Code())) && ReportOK(db, Fail(w, e.Reason(), e.Code()))
  {
    assert w.st.phase == TOOL_PENDING;
  }

  // The write call in flight, as the executor of the lease holder sees it.
  ghost predicate WriteCtx(cfg: Config, db: Db, def: ToolDef, call: ToolCall, digest: Obj) {
    && Registered(cfg) && DbInv(cfg, db) && InFlight(db.lastSaved)
    && call == db.lastSaved.value.pendingCall.value && digest == BoundArguments(call, db.lastSaved.value.observations)
    && call.name in cfg.tools && def == cfg.tools[call.name] && def.sideEffect && call.key.Some?
  }

  ghost predicate MoveOK(cfg: Config, db: Db, def: ToolDef, call: ToolCall, db': Db, move: ToolMove) {
    && db'.run == db.run && db'.lastSaved == db.lastSaved && db'.checkpoints == db.checkpoints
    && DbInv(cfg, db') && (move.Next? ==> ToolPcInv(def, db', call, move.pc))
  }

  lemma {:induction false} BeginMove(cfg: Config, db: Db, def: ToolDef, token: nat, now: int, call: ToolCall,
      digest: Obj)
    requires WriteCtx(cfg, db, def, call, digest)
    ensures var (db', move) := BeginStep(db, token, now, LedgerKey(call.name, call.key.value), digest);
            MoveOK(cfg, db, def, call, db', move)
  {
    var lk := LedgerKey(call.name, call.key.value);
    if lk in db.ledger {
      assert SucceededRow(db, lk) ==> db.ledger[lk].result.Some?;
    } else {
      LedgerWriteKeepsDb(cfg, db, lk, Record(digest, STARTED, None, None, token));
    }
  }

  lemma {:induction false} UpdateMove(
    cfg: Config, db: Db, def: ToolDef, token: nat, now: int, call: ToolCall, digest: Obj,
    status: LedgerStatus, result: Option<Obj>, error: Option<ErrorCode>, move: ToolMove)
    requires WriteCtx(cfg, db, def, call, digest)
    requires status == SUCCEEDED ==> result.Some? && RightResult(db, call.key.value, result.value)
    requires move.Next? ==> status != SUCCEEDED && (move.pc.Handler? || move.pc.Reconcile?)
    requires move.Next? && move.pc.Handler? ==> status == STARTED
    ensures var (db', move') := LedgerStep(UpdateTxn(db, token, now, LedgerKey(call.name, call.key.value), status, result, error), db, move);
            MoveOK(cfg, db, def, call, db', move')
  {
    LedgerWriteKeepsDb(cfg, db, LedgerKey(call.name, call.key.value), Record(digest, status, result, error, token));
  }

  lemma {:induction false} OnErrorMove(def: ToolDef, db: Db, call: ToolCall, attempt: nat, exc: Exc, o: Outcome)
    requires def.sideEffect && call.key.Some?
    requires var lk := LedgerKey(call.name, call.key.value); lk in db.ledger && !SucceededRow(db, lk)
    ensures var move := OnError(def, attempt, exc, o); move.Next? && ToolPcInv(def, db, call, move.pc)
  {
  }

  // A handler that raised, with or without having committed.
  lemma {:induction false} ErrorMove(cfg: Config, db: Db, def: ToolDef, call: ToolCall, digest: Obj, attempt: nat,
      db': Db, exc: Exc, o: Outcome)
    requires WriteCtx(cfg, db, def, call, digest) && ToolPcInv(def, db, call, Handler(attempt))
    requires db' == db || db' == ProposeTxn(db, call.name, call.key.value, o.freshId)
    ensures MoveOK(cfg, db, def, call, db', OnError(def, attempt, exc, o))
  {
    ProposeKeepsDb(cfg, db, o.freshId);
    OnErrorMove(def, db', call, attempt, exc, o);
  }

  lemma {:induction false} CommitMove(cfg: Config, db: Db, def: ToolDef, call: ToolCall, digest: Obj, attempt: nat,
      o: Outcome)
    requires WriteCtx(cfg, db, def, call, digest) && ToolPcInv(def, db, call, Handler(attempt))
    ensures
      var committed := ProposeTxn(db, call.name, call.key.value, o.freshId);
      MoveOK(cfg, db, def, call, committed, Next(Succeed(attempt, ProposalResult(committed.proposals[call.key.value]))))
  {
    ProposeKeepsDb(cfg, db, o.freshId);
    var committed := ProposeTxn(db, call.name, call.key.value, o.freshId);
    assert RightResult(committed, call.key.value, ProposalResult(committed.proposals[call.key.value]));
  }

  lemma {:induction false} HandlerMove(cfg: Config, db: Db, def: ToolDef, token: nat, now: int, call: ToolCall,
      digest: Obj, attempt: nat, o: Outcome)
    requires WriteCtx(cfg, db, def, call, digest) && ToolPcInv(def, db, call, Handler(attempt))
    ensures var (db', move) := HandlerStep(def, db, token, now, call, digest, attempt, o);
            MoveOK(cfg, db, def, call, db', move)
  {
    if attempt <= def.maxAttempts {
      if o.threw.Some? && !o.effect {
        ErrorMove(cfg, db, def, call, digest, attempt, db, o.threw.value, o);
      } else if !FencePasses(db.run, token, None, now) {
        ErrorMove(cfg, db, def, call, digest, attempt, db, OtherException, o);
      } else if call.key.value !in db.proposals && !HasEvidence(digest) {
        ErrorMove(cfg, db, def, call, digest, attempt, db, ApplicationError, o);
      } else if o.threw.None? {
        CommitMove(cfg, db, def, call, digest, attempt, o);
      } else {
        ErrorMove(cfg, db, def, call, digest, attempt, ProposeTxn(db, call.name, call.key.value, o.freshId), o.threw.value, o);
      }
    }
  }

  lemma {:induction false} MarkMove(cfg: Config, db: Db, def: ToolDef, token: nat, now: int, call: ToolCall,
      digest: Obj, at: ToolPc, o: Outcome)
    requires WriteCtx(cfg, db, def, call, digest) && ToolPcInv(def, db, call, at)
    requires at.Restart? || at.MarkStarted? || at.MarkUnknown? || at.MarkFail?
    ensures var (db', move) := ToolStep(def, db, token, now, call, digest, at, o);
            MoveOK(cfg, db, def, call, db', move)
  {
    match at {
      case Restart => UpdateMove(cfg, db, def, token, now, call, digest, STARTED, None, None, Next(Handler(1)));
      case MarkStarted(n) => UpdateMove(cfg, db, def, token, now, call, digest, STARTED, None, None, Next(Handler(n)));
      case MarkUnknown(n, e) =>
        UpdateMove(cfg, db, def, token, now, call, digest, UNKNOWN, None, Some(e.Code()), Next(Reconcile(n, e)));
      case MarkFail(e) => UpdateMove(cfg, db, def, token, now, call, digest, LEDGER_FAILED, None, Some(e.Code()), Raised(e));
    }
  }

  lemma {:induction false} SucceedMove(cfg: Config, db: Db, def: ToolDef, token: nat, now: int, call: ToolCall,
      digest: Obj, at: ToolPc, o: Outcome)
    requires WriteCtx(cfg, db, def, call, digest) && ToolPcInv(def, db, call, at)
    requires at.PreSucceed? || at.Succeed? || at.LateSucceed?
    ensures var (db', move) := ToolStep(def, db, token, now, call, digest, at, o);
            MoveOK(cfg, db, def, call, db', move)
  {
    match at {
      case PreSucceed(r) => UpdateMove(cfg, db, def, token, now, call, digest, SUCCEEDED, Some(r), None, Returned(r, true));
      case Succeed(_, r) => UpdateMove(cfg, db, def, token, now, call, digest, SUCCEEDED, Some(r), None, Returned(r, false));
      case LateSucceed(r) => UpdateMove(cfg, db, def, token, now, call, digest, SUCCEEDED, Some(r), None, Returned(r, true));
    }
  }

  lemma {:induction false} WriteMove(cfg: Config, db: Db, def: ToolDef, token: nat, now: int, call: ToolCall,
      digest: Obj, at: ToolPc, o: Outcome)
    requires WriteCtx(cfg, db, def, call, digest) && ToolPcInv(def, db, call, at)
    ensures var (db', move) := ToolStep(def, db, token, now, call, digest, at, o);
            MoveOK(cfg, db, def, call, db', move)
  {
    if at.Begin? {
      BeginMove(cfg, db, def, token, now, call, digest);
    } else if at.Handler? {
      HandlerMove(cfg, db, def, token, now, call, digest, at.attempt, o);
    } else if at.PreSucceed? || at.Succeed? || at.LateSucceed? {
      SucceedMove(cfg, db, def, token, now, call, digest, at, o);
    } else if !at.PreReconcile? && !at.Reconcile? {
      MarkMove(cfg, db, def, token, now, call, digest, at, o);
    }
  }

  lemma {:induction false} ToolWorkStep(cfg: Config, token: nat, now: int, db: Db, w: Worker, o: Outcome,
      trace: TraceWrite)
    requires Registered(cfg) && DbInv(cfg, db) && HolderInv(cfg, db, token, w) && w.pc.Tool?
    ensures var (db', w') := ToolWork(cfg, token, now, db, w, w.pc.at, o, trace); StepOK(cfg, db, token, db', w')
  {
    var call := w.st.pendingCall.value;
    var def := cfg.tools[call.name];
    var digest := BoundArguments(call, w.st.observations);
    var (db', move) := ToolStep(def, db, token, now, call, digest, w.pc.at, o);
    if def.sideEffect {
      WriteMove(cfg, db, def, token, now, call, digest, w.pc.at, o);
    }
    assert MoveOK(cfg, db, def, call, db', move);
    MoveStep(cfg, db, db', token, w, move, trace);
  }

  lemma {:induction false} MoveStep(cfg: Config, db: Db, db': Db, token: nat, w: Worker, move: ToolMove,
      trace: TraceWrite)
    requires Registered(cfg) && InTool(cfg, w.st, db.lastSaved)
    requires MoveOK(cfg, db, cfg.tools[w.st.pendingCall.value.name], w.st.pendingCall.value, db', move)
    ensures StepOK(cfg, db, token, db', AfterMove(w, cfg.tools[w.st.pendingCall.value.name], w.st.pendingCall.value, move, trace))
  {
    match move {
      case Next(pc) =>
      case Returned(result, replayed) =>
        AfterToolStep(cfg, db', token, w, result, replayed);
        TraceStep(cfg, db', token, w, result, replayed, trace,
                  AfterTool(w, cfg.tools[w.st.pendingCall.value.name], w.st.pendingCall.value, result, replayed));
      case Raised(e) => RaisedStep(cfg, db', token, w, e);
      case Lost =>
    }
  }

  ghost predicate Holding(cfg: Config, token: nat, db: Db, w: Worker) {
    Registered(cfg) && DbInv(cfg, db) && HolderInv(cfg, db, token, w) && ReportOK(db, w) && token == db.run.token
  }

  lemma {:induction false} AfterSaveOK(cfg: Config, db: Db, token: nat, w: Worker)
    requires DbInv(cfg, db) && HolderInv(cfg, db, token, w) && Saves(w.pc)
    ensures HolderInv(cfg, Saved(db, token, w.st), token, AfterSave(w))
    ensures ReportOK(Saved(db, token, w.st), AfterSave(w))
    ensures !IsCompleted(db.lastSaved)
  {
  }

  lemma {:induction false} SaveIsSavable(cfg: Config, db: Db, token: nat, w: Worker)
    requires Holding(cfg, token, db, w) && Saves(w.pc)
    ensures Savable(cfg, db, w.st)
  {
    if w.pc.SaveTool? {
      SaveToolSavable(cfg, db, w.st);
    } else if w.pc.TermSave? {
      TerminationSavable(cfg, db, w.st);
    }
  }

  lemma {:induction false} SaveStep(cfg: Config, db: Db, token: nat, now: int, w: Worker)
    requires Holding(cfg, token, db, w) && Saves(w.pc)
    ensures var (db', w') := SaveThen(db, token, now, w, AfterSave(w)); StepOK(cfg, db, token, db', w')
  {
    SaveIsSavable(cfg, db, token, w);
    SaveKeepsDb(cfg, db, token, w.st);
    AfterSaveOK(cfg, db, token, w);
  }

  lemma {:induction false} CheckStep(cfg: Config, token: nat, now: int, timeUp: bool, db: Db, w: Worker)
    requires Holding(cfg, token, db, w) && Checks(w.pc)
    ensures StepOK(cfg, db, token, db, IfActive(db, token, now, w, AfterCheck(cfg, timeUp, w)))
  {
    if w.pc.Guard? {
      var over := CheckBeforeModel(cfg.budget, w.st, timeUp);
      if over.Some? { FailForGood(cfg, db, token, w, over.value, CodeBudget(over.value)); }
    } else if w.pc.ToolGuard? {
      EnterToolStep(cfg, db, token, timeUp, w);
    }
    ActiveStep(cfg, db, token, now, w, AfterCheck(cfg, timeUp, w));
  }

  lemma {:induction false} ModelStep(cfg: Config, db: Db, token: nat, timeUp: bool, w: Worker, ch: Choice)
    requires Holding(cfg, token, db, w) && w.pc.Model?
    ensures StepOK(cfg, db, token, db, ModelWork(cfg, timeUp, w, ch))
  {
    if ch.ModelReply? {
      if ParsedAction(ch.result.action) { ModelReplyStep(cfg, db, token, timeUp, w, ch.result, ch.trace); }
    } else if ch.ModelFailure? {
      ModelFailureStep(cfg, db, token, w, ch.structured, ch.attempts, ch.trace);
    }
  }

  lemma {:induction false} HolderStep(cfg: Config, token: nat, now: int, timeUp: bool, db: Db, w: Worker, ch: Choice)
    requires Holding(cfg, token, db, w)
    ensures var (db', w') := Work(cfg, token, now, timeUp, db, w, ch); StepOK(cfg, db, token, db', w')
  {
    if w.pc.Finished? {
    } else if ch.Fault? {
      if Running(w) { FailForGood(cfg, db, token, w, INTERNAL_ERROR, CodeOther(ch.exceptionName)); }
    } else if w.pc.Load? {
      LoadStep(cfg, db, token, now, w);
    } else if w.pc.Model? {
      ModelStep(cfg, db, token, timeUp, w, ch);
    } else if Checks(w.pc) {
      CheckStep(cfg, token, now, timeUp, db, w);
    } else if Saves(w.pc) {
      SaveStep(cfg, db, token, now, w);
    } else if ch.ToolAnswer? {
      ToolWorkStep(cfg, token, now, db, w, ch.outcome, ch.trace);
    }
  }

  lemma {:induction false} ToolStepFrame(def: ToolDef, token: nat, now: int, db: Db, call: ToolCall, digest: Obj,
      at: ToolPc, o: Outcome)
    ensures
      var db' := ToolStep(def, db, token, now, call, digest, at, o).0;
      && db'.run == db.run && db'.checkpoints == db.checkpoints && db'.lastSaved == db.lastSaved
      && (!at.Handler? || !def.sideEffect ==> db'.proposals == db.proposals)
  {
  }

  // Which rows a worker's step can touch at all.
  lemma {:induction false} WorkFrame(cfg: Config, token: nat, now: int, timeUp: bool, db: Db, w: Worker, ch: Choice)
    ensures
      var db' := Work(cfg, token, now, timeUp, db, w, ch).0;
      && db'.run == db.run
      && (!w.pc.Tool? || !ch.ToolAnswer? ==> db'.ledger == db.ledger && db'.proposals == db.proposals)
      && (!Saves(w.pc) ==> db'.checkpoints == db.checkpoints && db'.lastSaved == db.lastSaved)
      && (Saves(w.pc) ==> db' == db || db'.lastSaved == Some(w.st))
  {
    if w.pc.Tool? && ch.ToolAnswer? && w.st.pendingCall.Some? && w.st.pendingCall.value.name in cfg.tools {
      var call := w.st.pendingCall.value;
      ToolStepFrame(cfg.tools[call.name], token, now, db, call, BoundArguments(call, w.st.observations), w.pc.at, ch.outcome);
    }
  }

  // ---- Everyone else -----------------------------------------------------------------------

  lemma {:induction false} StaleToolStep(def: ToolDef, token: nat, now: int, db: Db, call: ToolCall, digest: Obj,
      at: ToolPc, o: Outcome)
    requires token != db.run.token
    ensures ToolStep(def, db, token, now, call, digest, at, o).0 == db
  {
  }

  predicate ReportsCompletion(w: Worker) { w.pc.Finished? && w.pc.ending.Completed? }

  lemma {:induction false} ModelNeverCompletes(cfg: Config, timeUp: bool, w: Worker, ch: Choice)
    requires w.pc.Model?
    ensures !ReportsCompletion(ModelWork(cfg, timeUp, w, ch))
  {
    if ch.ModelReply? && ParsedAction(ch.result.action) {
      var w1 := w.(st := AfterModel(w.st, ch.result));
      ActionNeverCompletes(cfg, timeUp, w1, BindIdempotency(ch.result.action, cfg.identity.runId, w1.st.loopCount));
    }
  }

  lemma {:induction false} ActionNeverCompletes(cfg: Config, timeUp: bool, w: Worker, action: ModelAction)
    requires w.pc.Model?
    ensures !ReportsCompletion(OnAction(cfg, timeUp, w, action))
  {
  }

  lemma {:induction false} StaleCheck(cfg: Config, token: nat, now: int, timeUp: bool, db: Db, w: Worker)
    requires token != db.run.token && Checks(w.pc)
    ensures !ReportsCompletion(IfActive(db, token, now, w, AfterCheck(cfg, timeUp, w)))
  {
  }

  lemma {:induction false} StaleTool(cfg: Config, token: nat, now: int, db: Db, w: Worker, o: Outcome,
      trace: TraceWrite)
    requires token != db.run.token && w.pc.Tool?
    ensures var (db', w') := ToolWork(cfg, token, now, db, w, w.pc.at, o, trace); db' == db && !ReportsCompletion(w')
  {
    if w.st.pendingCall.Some? && w.st.pendingCall.value.name in cfg.tools {
      var call := w.st.pendingCall.value;
      var def, digest := cfg.tools[call.name], BoundArguments(call, w.st.observations);
      StaleToolStep(def, token, now, db, call, digest, w.pc.at, o);
      MoveNeverCompletes(w, def, call, ToolStep(def, db, token, now, call, digest, w.pc.at, o).1, trace);
    }
  }

  lemma {:induction false} MoveNeverCompletes(w: Worker, def: ToolDef, call: ToolCall, move: ToolMove,
      trace: TraceWrite)
    ensures !ReportsCompletion(AfterMove(w, def, call, move, trace))
  {
  }

  // A worker whose token is not the current one changes no row and completes nothing.
  lemma {:induction false} StaleStep(cfg: Config, token: nat, now: int, timeUp: bool, db: Db, w: Worker, ch: Choice)
    requires token != db.run.token
    ensures var (db', w') := Work(cfg, token, now, timeUp, db, w, ch);
            db' == db && (ReportsCompletion(w') ==> w' == w)
  {
    if w.pc.Finished? || ch.Fault? {
    } else if w.pc.Model? {
      ModelNeverCompletes(cfg, timeUp, w, ch);
    } else if Checks(w.pc) {
      StaleCheck(cfg, token, now, timeUp, db, w);
    } else if w.pc.Tool? && ch.ToolAnswer? {
      StaleTool(cfg, token, now, db, w, ch.outcome, ch.trace);
    }
  }

  lemma {:induction false} ReportsSurvive(db: Db, db': Db, workers: map<nat, Worker>)
    requires forall t | t in workers :: ReportOK(db, workers[t])
    requires IsCompleted(db.lastSaved) ==> db'.lastSaved == db.lastSaved
    ensures forall t | t in workers :: ReportOK(db', workers[t])
  {
  }

  lemma {:induction false} StepKeepsInv(cfg: Config, s: System, token: nat, db': Db, w': Worker)
    requires Inv(cfg, s) && token in s.workers
    requires if token == s.db.run.token then StepOK(cfg, s.db, token, db', w')
             else db' == s.db && (ReportsCompletion(w') ==> w' == s.workers[token])
    ensures Inv(cfg, System(db', s.workers[token := w']))
  {
    if token == s.db.run.token {
      ReportsSurvive(s.db, db', s.workers);
    }
  }

  lemma {:induction false} EventKeepsInv(cfg: Config, s: System, e: Event)
    requires Registered(cfg) && Inv(cfg, s)
    ensures Inv(cfg, Advance(cfg, s, e))
  {
    if e.Step? {
      if e.token in s.workers {
        var w := s.workers[e.token];
        if e.token == s.db.run.token {
          HolderStep(cfg, e.token, e.now, e.timeUp, s.db, w, e.choice);
        } else {
          StaleStep(cfg, e.token, e.now, e.timeUp, s.db, w, e.choice);
        }
        var (db', w') := Work(cfg, e.token, e.now, e.timeUp, s.db, w, e.choice);
        StepKeepsInv(cfg, s, e.token, db', w');
      }
    } else {
      OtherEventKeepsInv(cfg, s, e);
    }
  }

  lemma {:induction false} AcquireKeepsInv(cfg: Config, s: System, owner: string, now: int)
    ensures Inv(cfg, s) ==> Inv(cfg, Advance(cfg, s, AcquireLease(owner, now)))
  {
    var answer := AcquireTxn(s.db.run, owner, now, cfg.leaseSeconds);
    if answer.Granted? && Inv(cfg, s) {
      var row := answer.value;
      var s' := System(s.db.(run := row), s.workers[row.token := Worker(owner, Load, FreshState(cfg, row.token, now))]);
      assert row.token == s.db.run.token + 1;
      KeepRows(cfg, s, s');
    }
  }

  lemma {:induction false} ReviewKeepsInv(cfg: Config, s: System, key: string, decision: string)
    ensures Inv(cfg, s) ==> Inv(cfg, Advance(cfg, s, DecideProposal(key, decision)))
  {
    if key in s.db.proposals && Inv(cfg, s) {
      var reviewed := s.db.proposals[key := s.db.proposals[key].(status := decision)];
      assert reviewed.Keys == s.db.proposals.Keys;
      KeepRows(cfg, s, s.(db := s.db.(proposals := reviewed)));
    }
  }

  lemma {:induction false} CrashKeepsInv(cfg: Config, s: System, token: nat)
    ensures Inv(cfg, s) ==> Inv(cfg, Advance(cfg, s, Crash(token)))
  {
    if Inv(cfg, s) { KeepRows(cfg, s, s.(workers := s.workers - {token})); }
  }

  lemma {:induction false} RowChangeKeepsInv(cfg: Config, s: System, row: RunRow)
    requires row.token == s.db.run.token
    ensures Inv(cfg, s) ==> Inv(cfg, s.(db := s.db.(run := row)))
  {
    if Inv(cfg, s) { KeepRows(cfg, s, s.(db := s.db.(run := row))); }
  }

  // Lease traffic and status changes leave the token alone.
  lemma {:induction false} RowChange(cfg: Config, s: System, e: Event) returns (row: RunRow)
    requires e.RenewLease? || e.ReleaseLease? || e.ChangeRunStatus?
    ensures Advance(cfg, s, e) == s.(db := s.db.(run := row)) && row.token == s.db.run.token
  {
    row := Advance(cfg, s, e).db.run;
  }

  lemma {:induction false} OtherEventKeepsInv(cfg: Config, s: System, e: Event)
    requires Inv(cfg, s) && !e.Step?
    ensures Inv(cfg, Advance(cfg, s, e))
  {
    match e {
      case AcquireLease(owner, now) => AcquireKeepsInv(cfg, s, owner, now);
      case Crash(token) => CrashKeepsInv(cfg, s, token);
      case DecideProposal(key, decision) => ReviewKeepsInv(cfg, s, key, decision);
      case _ =>
        var row := RowChange(cfg, s, e);
        RowChangeKeepsInv(cfg, s, row);
    }
  }

  // Events that leave the harness's rows alone: lease traffic, status changes, reviews.
  lemma {:induction false} KeepRows(cfg: Config, s: System, s': System)
    requires SameRows(s.db, s'.db) && s.db.run.token <= s'.db.run.token
    requires forall t | t in s'.workers :: t <= s'.db.run.token
    requires forall t | t in s'.workers :: (t in s.workers && s'.workers[t] == s.workers[t]) || s'.workers[t].pc == Load
    requires s'.db.run.token in s'.workers ==> s'.db.run.token == s.db.run.token || s'.workers[s'.db.run.token].pc == Load
    ensures Inv(cfg, s) ==> Inv(cfg, s')
  {
    if Inv(cfg, s) {
      SameRowsKeepDb(cfg, s.db, s'.db);
      var t := s'.db.run.token;
      if t in s'.workers && s'.workers[t].pc != Load {
        SameRowsKeepHolder(cfg, s.db, s'.db, t, s'.workers[t]);
      }
    }
  }

  lemma {:induction false} ReachableInv(cfg: Config, s: System, events: seq<Event>)
    requires Registered(cfg) && Initial(s)
    ensures Inv(cfg, RunAll(cfg, s, events))
    decreases |events|
  {
    if events != [] {
      ReachableInv(cfg, s, events[..|events| - 1]);
      EventKeepsInv(cfg, RunAll(cfg, s, events[..|events| - 1]), events[|events| - 1]);
    }
  }
}
