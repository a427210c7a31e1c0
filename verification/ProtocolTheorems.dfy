// What the crash/resume protocol guarantees over every interleaving of workers, crashes, lost
// leases, retries, reviews and clock readings.
module ProtocolTheorems {
  import opened Wrappers
  import opened Contracts
  import opened LeaseSpec
  import opened StoreSpec
  import opened BudgetSpec
  import opened Keys
  import opened ToolSpec
  import opened RunnerSpec
  import opened Protocol
  import opened ProtocolInvariant

  ghost predicate Reachable(cfg: Config, s: System) {
    exists s0, events :: Initial(s0) && s == RunAll(cfg, s0, events)
  }

  lemma {:induction false} ReachableHasInv(cfg: Config, s: System)
    requires Registered(cfg) && Reachable(cfg, s)
    ensures Inv(cfg, s)
  {
    var s0, events :| Initial(s0) && s == RunAll(cfg, s0, events);
    ReachableInv(cfg, s0, events);
  }

  lemma {:induction false} RunKeepsInv(cfg: Config, s: System, events: seq<Event>)
    requires Registered(cfg) && Inv(cfg, s)
    ensures Inv(cfg, RunAll(cfg, s, events))
    decreases |events|
  {
    if events != [] {
      RunKeepsInv(cfg, s, events[..|events| - 1]);
      EventKeepsInv(cfg, RunAll(cfg, s, events[..|events| - 1]), events[|events| - 1]);
    }
  }

  // ---- Checkpoints -------------------------------------------------------------------------

  // The per-step table behaves as one register: loading the highest step returns the state that
  // some worker saved last.
  lemma {:induction false} TableIsLastSavedRegister(cfg: Config, s: System)
    requires Registered(cfg) && Reachable(cfg, s)
    ensures LoadLatest(s.db) ==
            (if s.db.lastSaved.None? then None else Some(s.db.lastSaved.value.(resumed := true)))
  {
    ReachableHasInv(cfg, s);
    LoadIsLastSaved(s.db);
  }

  // The checks of `load_latest` never fail, and what it loads is tidy.
  lemma {:induction false} CheckpointsAreIntact(cfg: Config, s: System)
    requires Registered(cfg) && Reachable(cfg, s) && s.db.checkpoints != map[]
    ensures Intact(LatestRow(s.db.checkpoints), cfg.identity.runId) && Tidy(LatestRow(s.db.checkpoints).state)
  {
    ReachableHasInv(cfg, s);
    LatestExists(s.db.checkpoints);
    forall k | IsLatest(s.db.checkpoints, k) ensures k == s.db.lastSaved.value.loopCount { }
  }

  // Only the holder of the newest token changes a checkpoint, a ledger row or the set of proposals.
  lemma {:induction false} OnlyTheHolderWrites(cfg: Config, s: System, e: Event)
    ensures
      var db, db' := s.db, Advance(cfg, s, e).db;
      db'.checkpoints != db.checkpoints || db'.ledger != db.ledger || db'.proposals.Keys != db.proposals.Keys ==>
        e.Step? && e.token == s.db.run.token && e.token in s.workers
  {
    if e.Step? && e.token in s.workers && e.token != s.db.run.token {
      StaleStep(cfg, e.token, e.now, e.timeUp, s.db, s.workers[e.token], e.choice);
    }
  }

  // What a step saves is the state the worker had.
  lemma {:induction false} WorkSavesItsState(cfg: Config, token: nat, now: int, timeUp: bool, db: Db, w: Worker,
      ch: Choice)
    ensures
      var after := Work(cfg, token, now, timeUp, db, w, ch).0;
      after.lastSaved == db.lastSaved || after.lastSaved == Some(w.st)
  {
    if w.pc.Tool? && ch.ToolAnswer? && w.st.pendingCall.Some? && w.st.pendingCall.value.name in cfg.tools {
      var call := w.st.pendingCall.value;
      ToolStepFrame(cfg.tools[call.name], token, now, db, call, BoundArguments(call, w.st.observations), w.pc.at, ch.outcome);
    }
  }

  // ---- Effects -----------------------------------------------------------------------------

  // A run creates at most one proposal when its write tools end the run, and at most one per step
  // whatever its tools are.
  lemma {:induction false} AtMostOneProposal(cfg: Config, s: System)
    requires Registered(cfg) && Reachable(cfg, s)
    ensures WritesAreTerminal(cfg) ==> forall a, b | a in s.db.proposals && b in s.db.proposals :: a == b
    ensures OnePerStep(cfg, s.db)
  {
    ReachableHasInv(cfg, s);
  }

  ghost predicate Keeps(db: Db, db': Db) {
    && (forall lk | SucceededRow(db, lk) :: lk in db'.ledger && db'.ledger[lk] == db.ledger[lk])
    && (forall k | k in db.proposals :: k in db'.proposals && db'.proposals[k].id == db.proposals[k].id)
  }

  lemma {:induction false} LedgerStepKeeps(db: Db, token: nat, now: int, lk: LedgerKey, status: LedgerStatus,
      result: Option<Obj>, error: Option<ErrorCode>, move: ToolMove)
    requires lk in db.ledger && !SucceededRow(db, lk)
    requires move.Returned? ==> RightResult(db, lk.key, move.result)
    ensures var (db', move') := LedgerStep(UpdateTxn(db, token, now, lk, status, result, error), db, move);
            Keeps(db, db') && (move'.Returned? ==> RightResult(db', lk.key, move'.result))
  {
  }

  lemma {:induction false} HandlerStepKeeps(def: ToolDef, db: Db, token: nat, now: int, call: ToolCall, digest: Obj,
      attempt: nat, o: Outcome)
    requires def.sideEffect && call.key.Some?
    ensures var (db', move) := HandlerStep(def, db, token, now, call, digest, attempt, o);
            Keeps(db, db') && !move.Returned?
  {
  }

  // One executor step of the holder touches no SUCCEEDED row, and what it returns names the proposal.
  ghost predicate StepKeeps(db: Db, key: string, db': Db, move: ToolMove) {
    Keeps(db, db') && (move.Returned? ==> RightResult(db', key, move.result))
  }

  lemma {:induction false} MarkKeeps(def: ToolDef, db: Db, token: nat, now: int, call: ToolCall, digest: Obj,
      at: ToolPc, o: Outcome)
    requires def.sideEffect && ToolPcInv(def, db, call, at)
    requires at.Restart? || at.MarkStarted? || at.MarkUnknown? || at.MarkFail?
    ensures var (db', move) := ToolStep(def, db, token, now, call, digest, at, o); StepKeeps(db, call.key.value, db', move)
  {
    var lk := LedgerKey(call.name, call.key.value);
    match at {
      case Restart => LedgerStepKeeps(db, token, now, lk, STARTED, None, None, Next(Handler(1)));
      case MarkStarted(n) => LedgerStepKeeps(db, token, now, lk, STARTED, None, None, Next(Handler(n)));
      case MarkUnknown(n, e) => LedgerStepKeeps(db, token, now, lk, UNKNOWN, None, Some(e.Code()), Next(Reconcile(n, e)));
      case MarkFail(e) => LedgerStepKeeps(db, token, now, lk, LEDGER_FAILED, None, Some(e.Code()), Raised(e));
    }
  }

  lemma {:induction false} SucceedKeeps(def: ToolDef, db: Db, token: nat, now: int, call: ToolCall, digest: Obj,
      at: ToolPc, o: Outcome)
    requires def.sideEffect && ToolPcInv(def, db, call, at) && (at.PreSucceed? || at.Succeed? || at.LateSucceed?)
    ensures var (db', move) := ToolStep(def, db, token, now, call, digest, at, o); StepKeeps(db, call.key.value, db', move)
  {
    var lk := LedgerKey(call.name, call.key.value);
    match at {
      case PreSucceed(r) => LedgerStepKeeps(db, token, now, lk, SUCCEEDED, Some(r), None, Returned(r, true));
      case Succeed(_, r) => LedgerStepKeeps(db, token, now, lk, SUCCEEDED, Some(r), None, Returned(r, false));
      case LateSucceed(r) => LedgerStepKeeps(db, token, now, lk, SUCCEEDED, Some(r), None, Returned(r, true));
    }
  }

  lemma {:induction false} WriteStepKeeps(cfg: Config, db: Db, def: ToolDef, token: nat, now: int, call: ToolCall,
      digest: Obj, at: ToolPc, o: Outcome)
    requires def.sideEffect && LedgerOK(db) && ToolPcInv(def, db, call, at)
    ensures var (db', move) := ToolStep(def, db, token, now, call, digest, at, o); StepKeeps(db, call.key.value, db', move)
  {
    if at.Begin? {
      var lk := LedgerKey(call.name, call.key.value);
      if SucceededRow(db, lk) {
        assert RightResult(db, call.key.value, db.ledger[lk].result.value);
      }
    } else if at.Handler? {
      HandlerStepKeeps(def, db, token, now, call, digest, at.attempt, o);
    } else if at.PreSucceed? || at.Succeed? || at.LateSucceed? {
      SucceedKeeps(def, db, token, now, call, digest, at, o);
    } else if !at.PreReconcile? && !at.Reconcile? {
      MarkKeeps(def, db, token, now, call, digest, at, o);
    }
  }

  lemma {:induction false} ToolWorkKeeps(cfg: Config, db: Db, token: nat, now: int, w: Worker, o: Outcome,
      trace: TraceWrite)
    requires Registered(cfg) && DbInv(cfg, db) && HolderInv(cfg, db, token, w) && w.pc.Tool?
    ensures Keeps(db, ToolWork(cfg, token, now, db, w, w.pc.at, o, trace).0)
  {
    var call := w.st.pendingCall.value;
    var def := cfg.tools[call.name];
    if def.sideEffect {
      WriteStepKeeps(cfg, db, def, token, now, call, BoundArguments(call, w.st.observations), w.pc.at, o);
    }
  }

  lemma {:induction false} HolderKeeps(cfg: Config, db: Db, token: nat, now: int, timeUp: bool, w: Worker, ch: Choice)
    requires Registered(cfg) && DbInv(cfg, db) && HolderInv(cfg, db, token, w)
    ensures Keeps(db, Work(cfg, token, now, timeUp, db, w, ch).0)
  {
    WorkFrame(cfg, token, now, timeUp, db, w, ch);
    if w.pc.Tool? && ch.ToolAnswer? { ToolWorkKeeps(cfg, db, token, now, w, ch.outcome, ch.trace); }
  }

  lemma {:induction false} EventKeeps(cfg: Config, s: System, e: Event)
    requires Registered(cfg) && Inv(cfg, s)
    ensures Keeps(s.db, Advance(cfg, s, e).db)
  {
    if e.Step? && e.token in s.workers {
      if e.token != s.db.run.token {
        StaleStep(cfg, e.token, e.now, e.timeUp, s.db, s.workers[e.token], e.choice);
      } else {
        HolderKeeps(cfg, s.db, e.token, e.now, e.timeUp, s.workers[e.token], e.choice);
      }
    }
  }

  // A SUCCEEDED ledger row and the id of a proposal never change again, whatever happens next.
  lemma {:induction false} SucceededRowsAreFinal(cfg: Config, s: System, events: seq<Event>)
    requires Registered(cfg) && Inv(cfg, s)
    ensures Keeps(s.db, RunAll(cfg, s, events).db)
    decreases |events|
  {
    if events != [] {
      var before := events[..|events| - 1];
      SucceededRowsAreFinal(cfg, s, before);
      RunKeepsInv(cfg, s, before);
      var mid := RunAll(cfg, s, before);
      EventKeeps(cfg, mid, events[|events| - 1]);
      forall lk | SucceededRow(s.db, lk) ensures SucceededRow(mid.db, lk) { }
    }
  }

  // Whoever executes the call in flight, and whether by a first attempt, a retry, a reconciliation
  // or a replay, the result it returns names the one proposal of the call's key; a worker that has
  // been superseded never gets a result from a write tool.
  lemma {:induction false} EveryExecutionReturnsTheSameProposal(cfg: Config, s: System, token: nat, now: int,
      o: Outcome)
    requires Registered(cfg) && Reachable(cfg, s) && token in s.workers
    requires s.workers[token].pc.Tool? && s.workers[token].st.pendingCall.Some?
    requires IsWrite(cfg, s.workers[token].st.pendingCall.value) && s.workers[token].st.pendingCall.value.key.Some?
    ensures
      var w := s.workers[token];
      var call := w.st.pendingCall.value;
      var (db', move) := ToolStep(cfg.tools[call.name], s.db, token, now, call, BoundArguments(call, w.st.observations), w.pc.at, o);
      move.Returned? ==>
        && token == s.db.run.token && RightResult(db', call.key.value, move.result)
        && (WritesAreTerminal(cfg) ==> forall k | k in s.db.proposals :: ProposalId(move.result) == Some(JStr(s.db.proposals[k].id)))
  {
    var w := s.workers[token];
    var call := w.st.pendingCall.value;
    var def, digest := cfg.tools[call.name], BoundArguments(call, w.st.observations);
    if token == s.db.run.token {
      HolderWrites(cfg, s);
      ReturnsTheProposal(cfg, s.db, def, token, now, call, digest, w.pc.at, o);
    }
  }

  // The lease holder inside a write call, as its executor sees it.
  lemma {:induction false} HolderWrites(cfg: Config, s: System)
    requires Registered(cfg) && Reachable(cfg, s) && s.db.run.token in s.workers
    requires var w := s.workers[s.db.run.token];
             w.pc.Tool? && w.st.pendingCall.Some? && IsWrite(cfg, w.st.pendingCall.value) && w.st.pendingCall.value.key.Some?
    ensures var w := s.workers[s.db.run.token];
            var call := w.st.pendingCall.value;
            && WriteCtx(cfg, s.db, cfg.tools[call.name], call, BoundArguments(call, w.st.observations))
            && ToolPcInv(cfg.tools[call.name], s.db, call, w.pc.at)
  {
    ReachableHasInv(cfg, s);
  }

  lemma {:induction false} ReturnsTheProposal(cfg: Config, db: Db, def: ToolDef, token: nat, now: int, call: ToolCall,
      digest: Obj, at: ToolPc, o: Outcome)
    requires WriteCtx(cfg, db, def, call, digest) && ToolPcInv(def, db, call, at)
    ensures
      var (db', move) := ToolStep(def, db, token, now, call, digest, at, o);
      move.Returned? ==>
        && RightResult(db', call.key.value, move.result)
        && (WritesAreTerminal(cfg) ==> forall k | k in db.proposals :: ProposalId(move.result) == Some(JStr(db.proposals[k].id)))
  {
    WriteStepKeeps(cfg, db, def, token, now, call, digest, at, o);
    WriteMove(cfg, db, def, token, now, call, digest, at, o);
    var (db', move) := ToolStep(def, db, token, now, call, digest, at, o);
    assert WritesAreTerminal(cfg) ==> AtMostOne(db'.proposals);
  }

  // Replay: once the row is SUCCEEDED, `begin` hands back its result and the handler stays uncalled.
  lemma {:induction false} HandlerNeverRunsAfterSuccess(cfg: Config, s: System, token: nat, now: int, o: Outcome)
    requires Registered(cfg) && Reachable(cfg, s) && token == s.db.run.token && token in s.workers
    requires s.workers[token].pc.Tool? && s.workers[token].st.pendingCall.Some?
    requires IsWrite(cfg, s.workers[token].st.pendingCall.value) && s.workers[token].st.pendingCall.value.key.Some?
    requires SucceededRow(s.db, LedgerKey(s.workers[token].st.pendingCall.value.name, s.workers[token].st.pendingCall.value.key.value))
    requires FencePasses(s.db.run, token, None, now)
    ensures
      var w := s.workers[token];
      var call := w.st.pendingCall.value;
      var row := s.db.ledger[LedgerKey(call.name, call.key.value)];
      && w.pc.at.Begin? && row.result.Some?
      && ToolStep(cfg.tools[call.name], s.db, token, now, call, BoundArguments(call, w.st.observations), w.pc.at, o)
         == (s.db, Returned(row.result.value, true))
  {
    ReachableHasInv(cfg, s);
  }

  // ---- Write-ahead -------------------------------------------------------------------------

  // What holds of the lease holder and the rows when its step adds a proposal.
  ghost predicate WrittenAhead(cfg: Config, db: Db, w: Worker, key: string) {
    db.lastSaved.Some? &&
    var r := db.lastSaved.value;
    && InFlight(Some(r)) && w.st.pendingCall == r.pendingCall && w.st.observations == r.observations
    && key == BoundKey(cfg.identity.runId, r.loopCount, r.pendingCall.value.name)
    && var lk := LedgerKey(r.pendingCall.value.name, key);
       lk in db.ledger && db.ledger[lk].status == STARTED
       && db.ledger[lk].digest == BoundArguments(r.pendingCall.value, r.observations)
  }

  // Proposals are added by a handler of a write tool only.
  lemma {:induction false} OnlyHandlersPropose(cfg: Config, token: nat, now: int, timeUp: bool, db: Db, w: Worker,
      ch: Choice)
    requires Work(cfg, token, now, timeUp, db, w, ch).0.proposals != db.proposals
    ensures w.pc.Tool? && ch.ToolAnswer? && w.pc.at.Handler? && w.st.pendingCall.Some? && IsWrite(cfg, w.st.pendingCall.value)
    ensures w.st.pendingCall.value.key.Some?
    ensures Work(cfg, token, now, timeUp, db, w, ch).0.proposals.Keys <= db.proposals.Keys + {w.st.pendingCall.value.key.value}
  {
    WorkFrame(cfg, token, now, timeUp, db, w, ch);
    var call := w.st.pendingCall.value;
    ToolStepFrame(cfg.tools[call.name], token, now, db, call, BoundArguments(call, w.st.observations), w.pc.at, ch.outcome);
  }

  lemma {:induction false} HandlerIsWrittenAhead(cfg: Config, db: Db, token: nat, w: Worker)
    requires Registered(cfg) && HolderInv(cfg, db, token, w)
    requires w.pc.Tool? && w.pc.at.Handler? && w.st.pendingCall.Some? && IsWrite(cfg, w.st.pendingCall.value)
    requires InFlight(db.lastSaved) ==> InFlightOK(cfg, db, db.lastSaved.value)
    ensures w.st.pendingCall.value.key.Some? && WrittenAhead(cfg, db, w, w.st.pendingCall.value.key.value)
  {
    assert BoundAt(cfg, w.st.pendingCall.value, w.st.loopCount);
  }

  lemma {:induction false} HolderProposes(cfg: Config, db: Db, token: nat, now: int, timeUp: bool, w: Worker,
      ch: Choice, key: string)
    requires Registered(cfg) && DbInv(cfg, db) && HolderInv(cfg, db, token, w)
    requires key !in db.proposals && key in Work(cfg, token, now, timeUp, db, w, ch).0.proposals
    ensures WrittenAhead(cfg, db, w, key)
  {
    assert Work(cfg, token, now, timeUp, db, w, ch).0.proposals.Keys != db.proposals.Keys;
    OnlyHandlersPropose(cfg, token, now, timeUp, db, w, ch);
    HandlerIsWrittenAhead(cfg, db, token, w);
  }

  // A proposal row appears only while the newest checkpoint holds the same call and observations,
  // under the key bound at that step, and after its ledger row was opened for those arguments.
  lemma {:induction false} ProposalsAreWrittenAhead(cfg: Config, s: System, e: Event, key: string)
    requires Registered(cfg) && Reachable(cfg, s)
    requires key !in s.db.proposals && key in Advance(cfg, s, e).db.proposals
    ensures e.Step? && e.token == s.db.run.token && e.token in s.workers
    ensures WrittenAhead(cfg, s.db, s.workers[e.token], key)
  {
    assert Advance(cfg, s, e).db.proposals.Keys != s.db.proposals.Keys;
    OnlyTheHolderWrites(cfg, s, e);
    ReachableHasInv(cfg, s);
    HolderProposes(cfg, s.db, e.token, e.now, e.timeUp, s.workers[e.token], e.choice, key);
  }

  // Every resume presents the arguments the row was opened with: `begin` never finds another digest.
  lemma {:induction false} DigestMismatchUnreachable(cfg: Config, s: System, token: nat, now: int)
    requires Registered(cfg) && Reachable(cfg, s) && token in s.workers
    requires s.workers[token].pc == Tool(Begin) && s.workers[token].st.pendingCall.Some?
    requires IsWrite(cfg, s.workers[token].st.pendingCall.value)
    ensures
      var w := s.workers[token];
      var call := w.st.pendingCall.value;
      BeginTxn(s.db, token, now, LedgerKey(call.name, call.key.GetOr("")), BoundArguments(call, w.st.observations)) != BeginMismatch
  {
    ReachableHasInv(cfg, s);
  }

  // ---- Decisions ---------------------------------------------------------------------------

  predicate Decided(last: Option<RuntimeState>) {
    last.Some? && (last.value.phase == FINAL_PENDING || IsCompleted(last))
  }

  predicate Settles(last: Option<RuntimeState>, last': Option<RuntimeState>) {
    last.Some? && Frozen(last.value) ==>
      last'.Some? && Frozen(last'.value) && SameCounters(last.value, last'.value)
      && last'.value.finalAction == last.value.finalAction
  }

  lemma {:induction false} EventSettles(cfg: Config, s: System, e: Event)
    requires Registered(cfg) && Inv(cfg, s)
    ensures Settles(s.db.lastSaved, Advance(cfg, s, e).db.lastSaved)
  {
    if e.Step? && e.token in s.workers {
      WorkFrame(cfg, e.token, e.now, e.timeUp, s.db, s.workers[e.token], e.choice);
      if e.token != s.db.run.token {
        StaleStep(cfg, e.token, e.now, e.timeUp, s.db, s.workers[e.token], e.choice);
      }
    }
  }

  lemma {:induction false} RunSettles(cfg: Config, s: System, events: seq<Event>)
    requires Registered(cfg) && Inv(cfg, s)
    ensures Settles(s.db.lastSaved, RunAll(cfg, s, events).db.lastSaved)
    decreases |events|
  {
    if events != [] {
      RunSettles(cfg, s, events[..|events| - 1]);
      RunKeepsInv(cfg, s, events[..|events| - 1]);
      EventSettles(cfg, RunAll(cfg, s, events[..|events| - 1]), events[|events| - 1]);
    }
  }

  // Once a FINAL_PENDING or COMPLETED checkpoint exists, every worker that ever reports completion
  // reports that decision with those counters, the lease holder is at no model or tool call, and
  // a resume changes nothing about the state.
  lemma {:induction false} DecisionIsStable(cfg: Config, s: System, events: seq<Event>)
    requires Registered(cfg) && Reachable(cfg, s) && Decided(s.db.lastSaved)
    ensures
      var s' := RunAll(cfg, s, events);
      var r := s.db.lastSaved.value;
      && s'.db.lastSaved.Some? && SameCounters(s'.db.lastSaved.value, r) && s'.db.lastSaved.value.finalAction == r.finalAction
      && Reopen(s'.db.lastSaved.value) == s'.db.lastSaved.value
      && (forall t | t in s'.workers && s'.workers[t].pc.Finished? && s'.workers[t].pc.ending.Completed? ::
            r.finalAction == Some(s'.workers[t].pc.ending.action) && SameCounters(s'.workers[t].st, r))
      && (var t := s'.db.run.token; t in s'.workers ==> !s'.workers[t].pc.Model? && !s'.workers[t].pc.Tool?)
  {
    ReachableHasInv(cfg, s);
    RunSettles(cfg, s, events);
    RunKeepsInv(cfg, s, events);
    var s' := RunAll(cfg, s, events);
    forall t | t in s'.workers && s'.workers[t].pc.Finished? && s'.workers[t].pc.ending.Completed?
      ensures s.db.lastSaved.value.finalAction == Some(s'.workers[t].pc.ending.action) && SameCounters(s'.workers[t].st, s.db.lastSaved.value)
    {
      assert ReportOK(s'.db, s'.workers[t]);
    }
  }

  // ---- Budgets -----------------------------------------------------------------------------

  // However often the run crashed and resumed, a completed run is within every limit.
  lemma {:induction false} CompletedRunsAreWithinBudget(cfg: Config, s: System, token: nat)
    requires Registered(cfg) && Reachable(cfg, s) && token in s.workers
    requires s.workers[token].pc.Finished? && s.workers[token].pc.ending.Completed?
    ensures
      var st, b := s.workers[token].st, cfg.budget;
      && st.loopCount <= b.maxSteps && st.toolCalls <= b.maxToolCalls && st.toolCalls <= st.loopCount
      && st.modelCalls <= b.maxModelCalls && st.repairCalls <= b.maxRepairCalls && TokensWithin(b, st)
  {
    ReachableHasInv(cfg, s);
    assert ReportOK(s.db, s.workers[token]);
  }

  predicate EndsOnToolBudget(w: Worker) {
    w.pc == TermSave(TOOL_BUDGET_EXCEEDED) || w.pc == Finished(Ended(TOOL_BUDGET_EXCEEDED))
  }

  lemma {:induction false} ToolCallAvoidsToolBudget(cfg: Config, timeUp: bool, w: Worker, call: ToolCall)
    requires w.st.toolCalls < cfg.budget.maxToolCalls && !EndsOnToolBudget(w)
    ensures !EndsOnToolBudget(OnToolCall(cfg, timeUp, w, call))
  {
  }

  lemma {:induction false} ModelWorkAvoidsToolBudget(cfg: Config, timeUp: bool, w: Worker, ch: Choice)
    requires w.pc.Model? && w.st.toolCalls < cfg.budget.maxToolCalls
    ensures !EndsOnToolBudget(ModelWork(cfg, timeUp, w, ch))
  {
    if ch.ModelReply? && ParsedAction(ch.result.action) {
      var w1 := w.(st := AfterModel(w.st, ch.result));
      var action := BindIdempotency(ch.result.action, cfg.identity.runId, w1.st.loopCount);
      if action.toolCall.Some? { ToolCallAvoidsToolBudget(cfg, timeUp, w1, action.toolCall.value); }
      assert !EndsOnToolBudget(OnAction(cfg, timeUp, w1, action));
    }
  }

  lemma {:induction false} CheckAvoidsToolBudget(cfg: Config, db: Db, token: nat, now: int, timeUp: bool, w: Worker)
    requires Checks(w.pc) && (w.pc.ToolGuard? ==> w.st.toolCalls < cfg.budget.maxToolCalls)
    ensures !EndsOnToolBudget(IfActive(db, token, now, w, AfterCheck(cfg, timeUp, w)))
  {
  }

  // A worker that may call a tool has a call left.
  lemma {:induction false} RoomForTools(cfg: Config, db: Db, token: nat, w: Worker)
    requires HolderInv(cfg, db, token, w) && cfg.budget.maxSteps <= cfg.budget.maxToolCalls
    ensures w.pc.Model? || w.pc.ToolGuard? ==> w.st.toolCalls < cfg.budget.maxToolCalls
  {
  }

  lemma {:induction false} ToolAvoidsToolBudget(cfg: Config, db: Db, token: nat, now: int, w: Worker, o: Outcome,
      trace: TraceWrite)
    requires w.pc.Tool?
    ensures !EndsOnToolBudget(ToolWork(cfg, token, now, db, w, w.pc.at, o, trace).1)
  {
    if w.st.pendingCall.Some? && w.st.pendingCall.value.name in cfg.tools {
      var call := w.st.pendingCall.value;
      var def := cfg.tools[call.name];
      var move := ToolStep(def, db, token, now, call, BoundArguments(call, w.st.observations), w.pc.at, o).1;
      assert !EndsOnToolBudget(OnToolMove(w, def, call, move));
    }
  }

  predicate NotOnToolBudget(last: Option<RuntimeState>) {
    last.Some? ==> last.value.terminationReason != Some(TOOL_BUDGET_EXCEEDED)
  }

  lemma {:induction false} LoadAvoidsToolBudget(cfg: Config, db: Db, token: nat, now: int, w: Worker)
    requires TableOK(db) && NotOnToolBudget(db.lastSaved)
    ensures !EndsOnToolBudget(LoadWork(cfg, token, now, db, w))
  {
    LoadIsLastSaved(db);
  }

  // With at least as many tool calls allowed as steps, no run ends on the tool budget.
  lemma {:induction false} StepAvoidsToolBudget(cfg: Config, db: Db, token: nat, now: int, timeUp: bool, w: Worker,
      ch: Choice)
    requires TableOK(db) && NotOnToolBudget(db.lastSaved) && !EndsOnToolBudget(w)
    requires w.pc.Model? || w.pc.ToolGuard? ==> w.st.toolCalls < cfg.budget.maxToolCalls
    ensures !EndsOnToolBudget(Work(cfg, token, now, timeUp, db, w, ch).1)
  {
    if w.pc.Finished? || ch.Fault? {
    } else if w.pc.Load? {
      LoadAvoidsToolBudget(cfg, db, token, now, w);
    } else if w.pc.Model? {
      ModelWorkAvoidsToolBudget(cfg, timeUp, w, ch);
    } else if Checks(w.pc) {
      CheckAvoidsToolBudget(cfg, db, token, now, timeUp, w);
    } else if w.pc.Tool? && ch.ToolAnswer? {
      ToolAvoidsToolBudget(cfg, db, token, now, w, ch.outcome, ch.trace);
    }
  }

  predicate NoToolBudgetEnd(s: System) {
    NotOnToolBudget(s.db.lastSaved) && (s.db.run.token in s.workers ==> !EndsOnToolBudget(s.workers[s.db.run.token]))
  }

  lemma {:induction false} SaveAvoidsToolBudget(cfg: Config, token: nat, now: int, timeUp: bool, db: Db, w: Worker,
      ch: Choice)
    requires !EndsOnToolBudget(w) && NotOnToolBudget(db.lastSaved)
    requires Saves(w.pc) ==> w.st.terminationReason == Some(TOOL_BUDGET_EXCEEDED) ==> w.pc == TermSave(TOOL_BUDGET_EXCEEDED)
    ensures NotOnToolBudget(Work(cfg, token, now, timeUp, db, w, ch).0.lastSaved)
  {
    WorkFrame(cfg, token, now, timeUp, db, w, ch);
  }

  lemma {:induction false} HolderEndsAsItSays(cfg: Config, db: Db, token: nat, w: Worker)
    requires HolderInv(cfg, db, token, w)
    ensures Saves(w.pc) ==> w.st.terminationReason == Some(TOOL_BUDGET_EXCEEDED) ==> w.pc == TermSave(TOOL_BUDGET_EXCEEDED)
  {
  }

  lemma {:induction false} EventKeepsNoToolBudgetEnd(cfg: Config, s: System, e: Event)
    requires Registered(cfg) && Inv(cfg, s) && NoToolBudgetEnd(s) && cfg.budget.maxSteps <= cfg.budget.maxToolCalls
    ensures NoToolBudgetEnd(Advance(cfg, s, e))
  {
    if e.Step? && e.token in s.workers {
      var w := s.workers[e.token];
      if e.token != s.db.run.token {
        StaleStep(cfg, e.token, e.now, e.timeUp, s.db, w, e.choice);
      } else {
        RoomForTools(cfg, s.db, e.token, w);
        HolderEndsAsItSays(cfg, s.db, e.token, w);
        SaveAvoidsToolBudget(cfg, e.token, e.now, e.timeUp, s.db, w, e.choice);
        StepAvoidsToolBudget(cfg, s.db, e.token, e.now, e.timeUp, w, e.choice);
        WorkFrame(cfg, e.token, e.now, e.timeUp, s.db, w, e.choice);
      }
    }
  }

  lemma {:induction false} ToolBudgetUnreachable(cfg: Config, s: System, events: seq<Event>)
    requires Registered(cfg) && Initial(s) && cfg.budget.maxSteps <= cfg.budget.maxToolCalls
    ensures NoToolBudgetEnd(RunAll(cfg, s, events))
    decreases |events|
  {
    if events != [] {
      ToolBudgetUnreachable(cfg, s, events[..|events| - 1]);
      ReachableInv(cfg, s, events[..|events| - 1]);
      EventKeepsNoToolBudgetEnd(cfg, RunAll(cfg, s, events[..|events| - 1]), events[|events| - 1]);
    }
  }
}
