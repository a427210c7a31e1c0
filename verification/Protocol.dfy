// The crash/resume protocol: one agent run, its database rows, and any number of workers.  A worker
// is known by the fencing token it acquired; crashed workers disappear, superseded ones stay and
// may try anything.  Every event carries its own clock reading, with no relation between them.
module Protocol {
  import opened Wrappers
  import opened Contracts
  import opened LeaseSpec
  import opened StoreSpec
  import opened BudgetSpec
  import opened Keys
  import opened ToolSpec
  import opened RunnerSpec

  datatype System = System(db: Db, workers: map<nat, Worker>)

  datatype Event =
    | Step(token: nat, now: int, timeUp: bool, choice: Choice)
    | AcquireLease(owner: string, now: int)
    | RenewLease(token: nat, now: int)
    | ReleaseLease(token: nat)
    | Crash(token: nat)
    | ChangeRunStatus(status: RunStatus)
    | DecideProposal(key: string, decision: string)

  ghost function Advance(cfg: Config, s: System, e: Event): System {
    match e
    case Step(token, now, timeUp, choice) =>
      if token !in s.workers then s
      else
        var (db, w) := Work(cfg, token, now, timeUp, s.db, s.workers[token], choice);
        System(db, s.workers[token := w])
    case AcquireLease(owner, now) =>
      (match AcquireTxn(s.db.run, owner, now, cfg.leaseSeconds)
       case Denied(_) => s
       case Granted(row) =>
         System(s.db.(run := row), s.workers[row.token := Worker(owner, Load, FreshState(cfg, row.token, now))]))
    case RenewLease(token, now) =>
      if token !in s.workers then s
      else (match RenewTxn(s.db.run, token, s.workers[token].owner, now, cfg.leaseSeconds)
            case Denied(_) => s
            case Granted(row) => s.(db := s.db.(run := row)))
    case ReleaseLease(token) =>
      if token !in s.workers then s
      else s.(db := s.db.(run := ReleaseTxn(s.db.run, token, s.workers[token].owner)))
    case Crash(token) => s.(workers := s.workers - {token})
    case ChangeRunStatus(status) => s.(db := s.db.(run := s.db.run.(status := status)))
    case DecideProposal(key, decision) =>
      if key !in s.db.proposals then s
      else s.(db := s.db.(proposals := s.db.proposals[key := s.db.proposals[key].(status := decision)]))
  }

  ghost function RunAll(cfg: Config, s: System, events: seq<Event>): System
    decreases |events|
  {
    if events == [] then s else Advance(cfg, RunAll(cfg, s, events[..|events| - 1]), events[|events| - 1])
  }

  // The run as it is created: no lease, no checkpoint, no ledger row, no proposal.
  ghost predicate Initial(s: System) {
    && s.workers == map[] && s.db.run.token == 0
    && s.db.checkpoints == map[] && s.db.ledger == map[] && s.db.proposals == map[] && s.db.lastSaved == None
  }

  // Writes are proposal tools, and only writes are terminal.  `ToolRegistry.register` sees to it for proposal
  // tools, and the learning registry has no other writes (ToolRegistrySpec.LearningRegistryIsRegistered).
  predicate Registered(cfg: Config) {
    forall name | name in cfg.tools ::
      && (cfg.tools[name].sideEffect ==> IsProposalName(name))
      && (cfg.tools[name].terminal.Some? ==> cfg.tools[name].sideEffect)
  }

  // Every write tool ends the run, as in the learning registry.
  predicate WritesAreTerminal(cfg: Config) {
    forall name | name in cfg.tools && cfg.tools[name].sideEffect :: cfg.tools[name].terminal.Some?
  }

  // ---- The invariant -----------------------------------------------------------------------

  predicate WithinLimits(cfg: Config, st: RuntimeState) {
    && st.modelCalls <= cfg.budget.maxModelCalls
    && st.repairCalls <= cfg.budget.maxRepairCalls
    && TokensWithin(cfg.budget, st)
  }

  predicate GoodFinal(a: ModelAction) {
    a.finish && a.toolCall.None? && a.decision.Some? && 0.0 <= a.confidence <= 1.0
  }

  predicate IsWrite(cfg: Config, call: ToolCall) { call.name in cfg.tools && cfg.tools[call.name].sideEffect }

  // A pending call was bound at its own step.
  predicate BoundAt(cfg: Config, call: ToolCall, step: nat) {
    IsProposalName(call.name) ==> call.key == Some(BoundKey(cfg.identity.runId, step, call.name))
  }

  // A state that no resume may take further.
  predicate Frozen(st: RuntimeState) {
    st.phase == FINAL_PENDING || (st.phase == TERMINATED && !Reopenable(st))
  }

  predicate PendingOK(cfg: Config, st: RuntimeState) {
    st.pendingCall.Some? ==>
      && st.pendingStep.Some? && (Frozen(st) || st.toolCalls < st.loopCount)
      && BoundAt(cfg, st.pendingCall.value, st.loopCount) && WithinLimits(cfg, st)
  }

  predicate PhaseOK(cfg: Config, st: RuntimeState) {
    match st.phase
    case READY => st.pendingCall.None? && st.finalAction.None? && st.terminationReason.None? && st.lastError.None?
    case TOOL_PENDING => st.pendingCall.Some? && st.finalAction.None? && st.terminationReason.None? && st.lastError.None?
    case FINAL_PENDING =>
      && st.pendingCall.None? && st.finalAction.Some? && st.terminationReason.None? && st.lastError.None?
      && WithinLimits(cfg, st)
    case TERMINATED =>
      && st.terminationReason.Some?
      && (st.terminationReason == Some(COMPLETED) ==>
            st.finalAction.Some? && st.lastError.None? && st.pendingCall.None? && WithinLimits(cfg, st))
      && (Reopenable(st) ==> st.finalAction.None?)
  }

  // Every state a worker saves.
  predicate Sane(cfg: Config, st: RuntimeState) {
    && st.identity == cfg.identity
    && st.modelCallLimit == cfg.budget.maxModelCalls && st.repairCallLimit == cfg.budget.maxRepairCalls
    && st.toolCalls <= st.loopCount <= cfg.budget.maxSteps
    && st.toolCalls <= cfg.budget.maxToolCalls
    && (st.finalAction.Some? ==> GoodFinal(st.finalAction.value))
    && PendingOK(cfg, st) && PhaseOK(cfg, st)
  }

  predicate SameCounters(a: RuntimeState, b: RuntimeState) {
    && a.loopCount == b.loopCount && a.modelCalls == b.modelCalls && a.toolCalls == b.toolCalls
    && a.inputTokens == b.inputTokens && a.outputTokens == b.outputTokens && a.repairCalls == b.repairCalls
  }

  // `st` is `r` as a resume would start on it.
  predicate Mirrors(st: RuntimeState, r: RuntimeState) {
    && SameCounters(st, r) && st.observations == r.observations
    && st.pendingCall == r.pendingCall && st.pendingStep == r.pendingStep
    && (if Frozen(r) then st.phase == r.phase && st.finalAction == r.finalAction
                       && st.terminationReason == r.terminationReason && st.lastError == r.lastError
        else st.phase == (if r.pendingCall.Some? then TOOL_PENDING else READY))
  }

  predicate Fresh(st: RuntimeState) { st.loopCount == 0 && st.phase == READY }

  predicate Synced(st: RuntimeState, last: Option<RuntimeState>) {
    if last.None? then Fresh(st) else Mirrors(st, last.value)
  }

  // The run may still go on, and nothing is in flight.
  predicate Open(last: Option<RuntimeState>) {
    last.Some? ==> !Frozen(last.value) && last.value.pendingCall.None?
  }

  predicate InFlight(last: Option<RuntimeState>) {
    last.Some? && !Frozen(last.value) && last.value.pendingCall.Some?
  }

  function LastStep(last: Option<RuntimeState>): nat { if last.None? then 0 else last.value.loopCount }

  predicate AtMostOne(m: map<string, Proposal>) { forall a, b | a in m && b in m :: a == b }

  // No row uses a key of a later step.
  ghost predicate FutureKeysFree(cfg: Config, db: Db, step: nat) {
    && (forall n: nat, name | n > step :: BoundKey(cfg.identity.runId, n, name) !in db.proposals)
    && (forall n: nat, name, tool | n > step :: LedgerKey(tool, BoundKey(cfg.identity.runId, n, name)) !in db.ledger)
  }

  // At most one row per step.
  ghost predicate OnePerStep(cfg: Config, db: Db) {
    forall n: nat, a, b | BoundKey(cfg.identity.runId, n, a) in db.proposals && BoundKey(cfg.identity.runId, n, b) in db.proposals :: a == b
  }

  predicate SucceededRow(db: Db, lk: LedgerKey) {
    && lk in db.ledger && db.ledger[lk].status == SUCCEEDED
  }

  predicate RightResult(db: Db, key: string, result: Obj) {
    key in db.proposals && ProposalId(result) == Some(JStr(db.proposals[key].id))
  }

  ghost predicate LedgerOK(db: Db) {
    forall lk | SucceededRow(db, lk) ::
      db.ledger[lk].result.Some? && RightResult(db, lk.key, db.ledger[lk].result.value)
  }

  predicate TableOK(db: Db) {
    if db.lastSaved.None? then db.checkpoints == map[]
    else
      var step := db.lastSaved.value.loopCount;
      IsLatest(db.checkpoints, step) && db.checkpoints[step] == RowOf(db.lastSaved.value, db.checkpoints[step].token)
  }

  // What the rows say about the call that is in flight.
  ghost predicate InFlightOK(cfg: Config, db: Db, st: RuntimeState) {
    st.pendingCall.Some? && IsWrite(cfg, st.pendingCall.value) && st.pendingCall.value.key.Some? ==>
      var call := st.pendingCall.value;
      var key := call.key.value;
      && (LedgerKey(call.name, key) in db.ledger ==>
            db.ledger[LedgerKey(call.name, key)].digest == BoundArguments(call, st.observations))
      && (key in db.proposals ==> db.proposals[key].tool == call.name)
      && (forall b | BoundKey(cfg.identity.runId, st.loopCount, b) in db.proposals :: b == call.name)
      && (WritesAreTerminal(cfg) ==> db.proposals.Keys <= {key})
  }

  ghost predicate DbInv(cfg: Config, db: Db) {
    && TableOK(db) && LedgerOK(db)
    && (db.lastSaved.Some? ==> Sane(cfg, db.lastSaved.value))
    && FutureKeysFree(cfg, db, LastStep(db.lastSaved)) && OnePerStep(cfg, db)
    && (WritesAreTerminal(cfg) ==>
          && AtMostOne(db.proposals)
          && (Open(db.lastSaved) ==> db.proposals == map[])
          && (InFlight(db.lastSaved) && !IsWrite(cfg, db.lastSaved.value.pendingCall.value) ==> db.proposals == map[]))
    && (InFlight(db.lastSaved) ==> InFlightOK(cfg, db, db.lastSaved.value))
  }

  // The position inside one tool execution, for the worker that holds the lease.
  ghost predicate ToolPcInv(def: ToolDef, db: Db, call: ToolCall, at: ToolPc) {
    if !def.sideEffect then at.Handler?
    else
      && call.key.Some?
      && var lk := LedgerKey(call.name, call.key.value);
      && (!at.Begin? ==> lk in db.ledger && !SucceededRow(db, lk))
      && (at.Handler? ==> db.ledger[lk].status == STARTED)
      && (at.PreSucceed? ==> RightResult(db, lk.key, at.found))
      && (at.LateSucceed? ==> RightResult(db, lk.key, at.found))
      && (at.Succeed? ==> RightResult(db, lk.key, at.result))
  }

  // The state of a worker inside `execute`, past the checks that come before the ledger.
  predicate InTool(cfg: Config, st: RuntimeState, last: Option<RuntimeState>) {
    && Sane(cfg, st) && Synced(st, last) && InFlight(last) && st.toolCalls < cfg.budget.maxToolCalls
    && st.pendingCall.value.name in cfg.tools
    && Precheck(cfg.tools[st.pendingCall.value.name], st.pendingCall.value).None?
  }

  // A state that follows the tool call in flight in `last`.
  predicate Resolves(cfg: Config, st: RuntimeState, last: Option<RuntimeState>) {
    && InFlight(last) && st.pendingCall.None? && st.loopCount == last.value.loopCount
    && (st.phase == READY || st.phase == FINAL_PENDING)
    && (WritesAreTerminal(cfg) && IsWrite(cfg, last.value.pendingCall.value) ==> st.phase == FINAL_PENDING)
  }

  // A terminated state about to be saved over `last`.
  predicate MayTerminate(st: RuntimeState, last: Option<RuntimeState>) {
    && st.phase == TERMINATED && st.terminationReason != Some(COMPLETED) && LastStep(last) <= st.loopCount
    && (if last.Some? && Frozen(last.value)
        then last.value.phase == FINAL_PENDING && Frozen(st)
             && SameCounters(st, last.value) && st.finalAction == last.value.finalAction
        else Frozen(st) || (st.pendingCall.None? && Open(last))
             || (InFlight(last) && st.loopCount == last.value.loopCount
                 && st.pendingCall == last.value.pendingCall && st.observations == last.value.observations))
  }

  // What holds of the worker whose token is the current one.
  ghost predicate HolderInv(cfg: Config, db: Db, token: nat, w: Worker) {
    var st, last := w.st, db.lastSaved;
    && (!w.pc.Load? && !w.pc.Finished? ==> Sane(cfg, st))
    && match w.pc
       case Load => true
       case Guard => Synced(st, last) && Open(last)
       case Model => Synced(st, last) && Open(last) && st.loopCount < cfg.budget.maxSteps
       case SaveFinal => Open(last) && LastStep(last) < st.loopCount && st.phase == FINAL_PENDING
       case SaveTool => Open(last) && LastStep(last) < st.loopCount && st.phase == TOOL_PENDING
       case SaveStalled => Open(last) && LastStep(last) < st.loopCount && st.phase == READY
       case ToolGuard => Synced(st, last) && InFlight(last)
       case Tool(at) =>
         && InTool(cfg, st, last)
         && ToolPcInv(cfg.tools[st.pendingCall.value.name], db, st.pendingCall.value, at)
       case PostGuard(stalled) => Resolves(cfg, st, last) && (stalled ==> st.phase == READY)
       case PostSave(stalled) => Resolves(cfg, st, last) && (stalled ==> st.phase == READY)
       case CompleteGuard => Synced(st, last) && last.Some? && last.value.phase == FINAL_PENDING
       case CompleteSave =>
         && last.Some? && last.value.phase == FINAL_PENDING && st.phase == TERMINATED
         && st.terminationReason == Some(COMPLETED)
         && SameCounters(st, last.value) && st.finalAction == last.value.finalAction
       case TermSave(reason) => MayTerminate(st, last) && st.terminationReason == Some(reason)
       case Finished(_) => true
  }

  // A worker that reported completion, whether or not it still holds the lease.
  ghost predicate ReportOK(db: Db, w: Worker) {
    w.pc.Finished? && w.pc.ending.Completed? ==>
      && db.lastSaved.Some? && db.lastSaved.value.phase == TERMINATED
      && db.lastSaved.value.terminationReason == Some(COMPLETED)
      && db.lastSaved.value.finalAction == Some(w.pc.ending.action)
      && SameCounters(w.st, db.lastSaved.value)
  }

  ghost predicate Inv(cfg: Config, s: System) {
    && DbInv(cfg, s.db)
    && (forall t | t in s.workers :: t <= s.db.run.token)
    && (forall t | t in s.workers :: ReportOK(s.db, s.workers[t]))
    && (s.db.run.token in s.workers ==> HolderInv(cfg, s.db, s.db.run.token, s.workers[s.db.run.token]))
  }
}
