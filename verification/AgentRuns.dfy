// app/application/agent_runs.py: one execution of a diagnosis job, from the lease to the verdict, and why a
// job is retried exactly when its run can be reopened.
module VerdictSpec {
  import opened Wrappers
  import opened Contracts
  import opened LeaseSpec
  import opened StoreSpec
  import opened BudgetSpec
  import opened ToolSpec
  import opened RunnerSpec
  import opened Protocol
  import opened ProtocolInvariant
  import opened ProtocolTheorems

  // What the job sees: success, an exception that is retried, or one that is not.
  datatype Verdict = Succeeds | RetryLater | Fails

  // `_raise_for_retry_or_failure`
  function VerdictOf(reason: TerminationReason, code: Option<ErrorCode>): Verdict {
    if reason == TerminationReason.MODEL_UNAVAILABLE then RetryLater
    else if code in {Some(CodeToolTimeout), Some(CodeToolRateLimited), Some(CodeToolUpstream), Some(CodeToolOutcomeUnknown)} then RetryLater
    else if reason in {COMPLETED, LOOP_STALLED, TerminationReason.CANCELLED} then Succeeds
    else Fails
  }

  // The model's code goes with the model's reason, and an end that is no failure leaves no code to retry on.
  predicate Matched(st: RuntimeState) {
    && (st.terminationReason == Some(TerminationReason.MODEL_UNAVAILABLE) <==> st.lastError == Some(CodeModelUnavailable))
    && (st.terminationReason.Some? && Harmless(st.terminationReason.value) ==> !(st.lastError.Some? && RetryableCode(st.lastError.value)))
  }

  predicate Harmless(reason: TerminationReason) {
    reason == COMPLETED || reason == LOOP_STALLED || reason == TerminationReason.CANCELLED
  }

  predicate Unfinished(pc: Pc) { !pc.Load? && !pc.CompleteSave? && !pc.TermSave? && !pc.Finished? }

  predicate Consistent(w: Worker) {
    && Matched(w.st)
    && (Unfinished(w.pc) ==> w.st.lastError.None? && w.st.terminationReason.None?)
    && (w.pc.TermSave? ==> w.st.phase == TERMINATED && w.st.terminationReason == Some(w.pc.reason))
    && (w.pc.Finished? && w.pc.ending.Ended? ==> w.st.phase == TERMINATED && w.st.terminationReason == Some(w.pc.ending.reason))
  }

  lemma {:induction false} ModelWorkIsConsistent(cfg: Config, timeUp: bool, w: Worker, ch: Choice)
    requires Consistent(w) && w.pc.Model?
    ensures Consistent(ModelWork(cfg, timeUp, w, ch))
  {
    if ch.ModelReply? && ParsedAction(ch.result.action) {
      ReplyIsConsistent(cfg, timeUp, w.(st := AfterModel(w.st, ch.result)), ch.result.action, ch.trace);
    }
  }

  lemma {:induction false} ReplyIsConsistent(cfg: Config, timeUp: bool, w: Worker, reply: ModelAction,
      trace: TraceWrite)
    requires Consistent(w) && w.pc.Model?
    ensures Consistent(OnCounted(cfg, timeUp, w, reply, trace))
  {
    var action := Keys.BindIdempotency(reply, cfg.identity.runId, w.st.loopCount);
    if !action.finish && action.toolCall.Some? { ToolCallIsConsistent(cfg, timeUp, w, action.toolCall.value); }
  }

  lemma {:induction false} ToolCallIsConsistent(cfg: Config, timeUp: bool, w: Worker, call: ToolCall)
    requires Consistent(w) && w.pc.Model?
    ensures Consistent(OnToolCall(cfg, timeUp, w, call))
  {
  }

  lemma {:induction false} CheckIsConsistent(cfg: Config, db: Db, token: nat, now: int, timeUp: bool, w: Worker)
    requires Consistent(w) && Checks(w.pc)
    ensures Consistent(IfActive(db, token, now, w, AfterCheck(cfg, timeUp, w)))
  {
    if w.pc.ToolGuard? { EnterToolIsConsistent(cfg, timeUp, w); }
  }

  lemma {:induction false} EnterToolIsConsistent(cfg: Config, timeUp: bool, w: Worker)
    requires Consistent(w) && w.pc.ToolGuard?
    ensures Consistent(EnterTool(cfg, timeUp, w))
  {
  }

  lemma {:induction false} ToolWorkIsConsistent(cfg: Config, token: nat, now: int, db: Db, w: Worker, o: Outcome,
      trace: TraceWrite)
    requires Consistent(w) && w.pc.Tool?
    ensures Consistent(ToolWork(cfg, token, now, db, w, w.pc.at, o, trace).1)
  {
    if w.st.pendingCall.Some? && w.st.pendingCall.value.name in cfg.tools {
      var call := w.st.pendingCall.value;
      var def := cfg.tools[call.name];
      MoveIsConsistent(w, def, call, ToolStep(def, db, token, now, call, BoundArguments(call, w.st.observations), w.pc.at, o).1, trace);
    }
  }

  lemma {:induction false} MoveIsConsistent(w: Worker, def: ToolDef, call: ToolCall, move: ToolMove, trace: TraceWrite)
    requires Consistent(w) && w.pc.Tool?
    ensures Consistent(AfterMove(w, def, call, move, trace))
  {
  }

  lemma {:induction false} LoadIsConsistent(cfg: Config, db: Db, token: nat, now: int, w: Worker)
    requires Consistent(w) && DbInv(cfg, db) && (db.lastSaved.Some? ==> Matched(db.lastSaved.value))
    ensures Consistent(LoadWork(cfg, token, now, db, w))
  {
    LoadIsLastSaved(db);
  }

  lemma {:induction false} WorkIsConsistent(cfg: Config, token: nat, now: int, timeUp: bool, db: Db, w: Worker,
      ch: Choice)
    requires Consistent(w) && DbInv(cfg, db) && (db.lastSaved.Some? ==> Matched(db.lastSaved.value))
    ensures Consistent(Work(cfg, token, now, timeUp, db, w, ch).1)
  {
    if w.pc.Finished? || ch.Fault? {
    } else if w.pc.Load? {
      LoadIsConsistent(cfg, db, token, now, w);
    } else if w.pc.Model? {
      ModelWorkIsConsistent(cfg, timeUp, w, ch);
    } else if Checks(w.pc) {
      CheckIsConsistent(cfg, db, token, now, timeUp, w);
    } else if w.pc.Tool? && ch.ToolAnswer? {
      ToolWorkIsConsistent(cfg, token, now, db, w, ch.outcome, ch.trace);
    }
  }

  ghost predicate AllConsistent(s: System) {
    && (s.db.lastSaved.Some? ==> Matched(s.db.lastSaved.value))
    && forall t | t in s.workers :: Consistent(s.workers[t])
  }

  lemma {:induction false} EventKeepsConsistent(cfg: Config, s: System, e: Event)
    requires Inv(cfg, s) && AllConsistent(s)
    ensures AllConsistent(Advance(cfg, s, e))
  {
    if e.Step? && e.token in s.workers {
      WorkIsConsistent(cfg, e.token, e.now, e.timeUp, s.db, s.workers[e.token], e.choice);
      WorkSavesItsState(cfg, e.token, e.now, e.timeUp, s.db, s.workers[e.token], e.choice);
    }
  }

  lemma {:induction false} RunIsConsistent(cfg: Config, s: System, events: seq<Event>)
    requires Registered(cfg) && Initial(s)
    ensures AllConsistent(RunAll(cfg, s, events))
    decreases |events|
  {
    if events != [] {
      RunIsConsistent(cfg, s, events[..|events| - 1]);
      ReachableInv(cfg, s, events[..|events| - 1]);
      EventKeepsConsistent(cfg, RunAll(cfg, s, events[..|events| - 1]), events[|events| - 1]);
    }
  }

  // A worker's job is retried exactly when the state it ended in can be reopened.
  lemma {:induction false} RetriedIffReopenable(cfg: Config, s: System, events: seq<Event>, token: nat)
    requires Registered(cfg) && Initial(s)
    requires
      var end := RunAll(cfg, s, events);
      token in end.workers && end.workers[token].pc.Finished? && end.workers[token].pc.ending.Ended?
    ensures
      var w := RunAll(cfg, s, events).workers[token];
      VerdictOf(w.pc.ending.reason, w.st.lastError) == RetryLater <==> Reopenable(w.st)
  {
    RunIsConsistent(cfg, s, events);
  }

  // A reopened run takes up a pending call where it was left, under the same key and observations, and
  // starts over at the model otherwise; its counters stay.
  lemma {:induction false} ReopeningKeepsTheCall(cfg: Config, st: RuntimeState, token: nat)
    requires Sane(cfg, st) && Reopenable(st)
    ensures
      var again := Resume(cfg, st, token);
      && SameCounters(again, st) && again.pendingCall == st.pendingCall && again.observations == st.observations
      && Dispatch(again) == (if st.pendingCall.Some? then ToolGuard else Guard)
      && Sane(cfg, again)
  {
  }
}

module AgentRuns {
  import opened Wrappers
  import opened Contracts
  import opened LeaseSpec
  import opened StoreSpec
  import opened RunnerSpec
  import opened Protocol
  import opened DatabaseAdapters
  import opened Harness
  import opened VerdictSpec

  // `BadCheckpoint` is the exception of a checkpoint that failed its checks; `Escaped` stands for one that
  // left the runner, when even saving the end of the run failed.
  datatype JobEnd =
    | NotAcquired(why: Denial)
    | LostLease
    | BadCheckpoint
    | Escaped
    | Judged(verdict: Verdict, ending: Ending)

  function ReasonOf(ending: Ending): Option<TerminationReason> {
    match ending
    case Completed(_) => Some(COMPLETED)
    case Ended(reason) => Some(reason)
    case _ => None
  }

  function ReportOf(st: RuntimeState, ending: Ending): RunReport {
    RunReport(st.loopCount, st.modelCalls, st.toolCalls, st.inputTokens, st.outputTokens, ReasonOf(ending))
  }

  function FinalStatus(ending: Ending): RunStatus {
    match ending
    case Completed(_) => RUN_COMPLETED
    case Ended(reason) =>
      if reason == COMPLETED then RUN_COMPLETED
      else if reason == LOOP_STALLED then STALLED
      else if reason == TerminationReason.CANCELLED then RUN_CANCELLED else RunStatus.FAILED
    case _ => RunStatus.FAILED
  }

  // The status of a run and the verdict on its job agree over every history: the job succeeds exactly where the run
  // is not marked as failed, and the status names the reason.
  lemma {:induction false} StatusAgreesWithVerdict(cfg: Config, s: System, events: seq<Event>, token: nat)
    requires Registered(cfg) && Initial(s)
    requires
      var end := RunAll(cfg, s, events);
      token in end.workers && end.workers[token].pc.Finished? && end.workers[token].pc.ending.Ended?
    ensures
      var w := RunAll(cfg, s, events).workers[token];
      var reason, status := w.pc.ending.reason, FinalStatus(w.pc.ending);
      && (VerdictOf(reason, w.st.lastError) == Succeeds <==> status != RunStatus.FAILED)
      && (status == RUN_COMPLETED <==> reason == COMPLETED)
      && (status == STALLED <==> reason == LOOP_STALLED)
      && (status == RUN_CANCELLED <==> reason == TerminationReason.CANCELLED)
  {
    RunIsConsistent(cfg, s, events);
  }

  class AgentDiagnosisService {
    const cfg: Config
    const db: Database

    constructor (cfg: Config, db: Database)
      ensures this.cfg == cfg && this.db == db
    {
      this.cfg, this.db := cfg, db;
    }

    // `_prepare_retryable_state`, on the state that was loaded.
    method PrepareRetryableState(loaded: RuntimeState) returns (st: RuntimeState)
      ensures st == Reopen(loaded)
    {
      st := loaded;
      if st.phase != TERMINATED || st.lastError.None? || !RetryableCode(st.lastError.value) {
        return;
      }
      st := st.(phase := if st.pendingCall.Some? && st.pendingStep.Some? then TOOL_PENDING else READY);
      st := st.(terminationReason := None, lastError := None, finalAction := None);
    }

    // The state a worker starts on: fresh, or loaded, stamped with its token, and reopened if possible.
    method StartingState(token: nat, now: int, loaded: Option<RuntimeState>) returns (st: RuntimeState)
      ensures st == if loaded.None? then FreshState(cfg, token, now) else Resume(cfg, loaded.value, token)
    {
      if loaded.None? {
        return FreshState(cfg, token, now);
      }
      st := PrepareRetryableState(loaded.value.(fencingToken := token, resumed := true));
      st := st.(modelCallLimit := cfg.budget.maxModelCalls, repairCallLimit := cfg.budget.maxRepairCalls);
    }

    // The first transaction of `execute_job`: the row of the run is created once, without a lease.
    method FindOrCreateRun()
      modifies db
      ensures db.created
      ensures db.View() == if old(db.created) then old(db.View()) else old(db.View()).(run := RunRow(RUNNING, 0, None, None))
    {
      if !db.created {
        db.created := true;
        db.status, db.fencingToken, db.leaseOwner, db.leaseExpiresAt := RUNNING, 0, None, None;
      }
    }

    // A loaded state is resumed under a fence check of its own, which counts it.
    method CountResume(token: nat, owner: string, now: int) returns (ok: bool)
      modifies db
      ensures ok <==> FencePasses(old(db.Run()), token, Some(owner), now)
      ensures db.View() == old(db.View()) && db.resumedCount == old(db.resumedCount) + if ok then 1 else 0
    {
      if !FencePasses(db.Run(), token, Some(owner), now) {
        return false;
      }
      db.resumedCount := db.resumedCount + 1;
      ok := true;
    }

    // `_finalize_run`: behind the fence the run's status follows from how it ended, and its counters and
    // reason are copied.
    method FinalizeRun(token: nat, now: int, ending: Ending, st: RuntimeState) returns (ok: bool)
      modifies db
      ensures ok <==> FencePasses(old(db.Run()), token, None, now)
      ensures db.View() == if ok then old(db.View()).(run := old(db.Run()).(status := FinalStatus(ending))) else old(db.View())
      ensures db.report == if ok then ReportOf(st, ending) else old(db.report)
    {
      if !FencePasses(db.Run(), token, None, now) {
        return false;
      }
      db.report := RunReport(st.loopCount, st.modelCalls, st.toolCalls, st.inputTokens, st.outputTokens, ReasonOf(ending));
      db.status := FinalStatus(ending);
      ok := true;
    }

    // What follows the runner's result: a lost lease and an escaped exception end the job; the minor
    // proposals of a completed run are applied behind the fence; then the run is finalized and judged.
    method Conclude(token: nat, ending: Ending, st: RuntimeState) returns (end: JobEnd)
      modifies db
      ensures end.Judged? ==> end.ending == ending && (ending.Completed? || ending.Ended?)
      ensures end.Judged? ==> end.verdict == if ending.Ended? then VerdictOf(ending.reason, st.lastError) else Succeeds
      ensures !end.NotAcquired? && !end.BadCheckpoint?
    {
      if ending.Fenced? {
        return LostLease;
      }
      if ending.Broken? {
        return Escaped;
      }
      var now: int;
      if ending.Completed? || ending.reason == COMPLETED {
        db.Interfere();
        now := *;
        if !FencePasses(db.Run(), token, None, now) {
          return LostLease;
        }
      }
      db.Interfere();
      now := *;
      var ok := FinalizeRun(token, now, ending, st);
      if !ok {
        return LostLease;
      }
      return Judged(if ending.Ended? then VerdictOf(ending.reason, st.lastError) else Succeeds, ending);
    }

    // Loading the state and counting the resume; `hops` is the worker's load step.
    method LoadState(owner: string, token: nat, ghost born: RuntimeState)
      returns (stop: Option<JobEnd>, st: RuntimeState, ghost hops: seq<Hop>)
      modifies db
      ensures stop.Some? ==> stop.value.LostLease? || stop.value.BadCheckpoint?
      ensures stop.None? ==> Tidy(st) && Path(cfg, token, Worker(owner, Load, born), hops, Worker(owner, Dispatch(st), st))
    {
      var checkpoints := new DatabaseCheckpointStore(db, cfg.identity.runId, token);
      db.Interfere();
      var now: int := *;
      st, hops := FreshState(cfg, token, now), [];
      ghost var before := db.View();
      var loading := checkpoints.LoadLatest(now);
      match loading {
        case LoadRefused => return Some(LostLease), st, [];
        case CheckpointInvalid => return Some(BadCheckpoint), st, [];
        case Loaded(_) =>
      }
      st := StartingState(token, now, loading.state);
      ghost var load := Hop(now, false, before, Worker(owner, Load, born), Go, before, Worker(owner, Dispatch(st), st));
      assert GoodHop(cfg, token, load);
      hops := [load];
      assert [load][..0] == [];
      stop := None;
      if loading.state.Some? {
        db.Interfere();
        now := *;
        var ok := CountResume(token, owner, now);
        stop := if ok then None else Some(LostLease);
      }
    }

    // The body of `async with lease_manager.hold()`: everything from loading the checkpoint to the end of
    // the run is a path of the worker automaton.
    method RunHeld(owner: string, manager: RunLeaseManager, token: nat, ghost born: RuntimeState)
      returns (end: JobEnd, ghost hops: seq<Hop>, ghost w: Worker)
      requires manager.db == db && manager.owner == owner
      requires manager.lease.Some? && manager.lease.value.fencingToken == token && manager.lease.value.owner == owner
      modifies db
      ensures end.Judged? ==> Path(cfg, token, Worker(owner, Load, born), hops, w)
      ensures end.Judged? ==> w.owner == owner && w.pc == Finished(end.ending)
      ensures end.Judged? ==> end.ending.Completed? || end.ending.Ended?
      ensures end.Judged? ==>
                end.verdict == if end.ending.Ended? then VerdictOf(end.ending.reason, w.st.lastError) else Succeeds
      ensures !end.NotAcquired?
    {
      var stop, st, load := LoadState(owner, token, born);
      hops, w := load, Worker(owner, Dispatch(st), st);
      if stop.Some? {
        return stop.value, hops, w;
      }
      var runner := new AgentRunner(cfg, db, manager, token, st);
      var ending := runner.Run();
      PathJoin(cfg, token, Worker(owner, Load, born), load, w, runner.hops, runner.w);
      hops, w := load + runner.hops, runner.w;
      end := Conclude(token, ending, runner.st);
    }

    // `execute_job`: find or create the run, acquire, run, release.  `before` is the database in which the
    // lease was acquired at the time `start`.
    method ExecuteJob(owner: string)
      returns (end: JobEnd, ghost token: nat, ghost start: int, ghost before: Db, ghost hops: seq<Hop>, ghost w: Worker)
      modifies db
      ensures end.Judged? ==>
                && AcquireTxn(before.run, owner, start, cfg.leaseSeconds).Granted? && token == before.run.token + 1
                && Path(cfg, token, Worker(owner, Load, FreshState(cfg, token, start)), hops, w)
                && w.owner == owner && w.pc == Finished(end.ending)
                && end.verdict == if end.ending.Ended? then VerdictOf(end.ending.reason, w.st.lastError) else Succeeds
      ensures end.NotAcquired? <==> AcquireTxn(before.run, owner, start, cfg.leaseSeconds).Denied?
    {
      db.Interfere();
      FindOrCreateRun();
      db.Interfere();
      var now: int := *;
      start, before := now, db.View();
      token, hops, w := 0, [], Worker(owner, Load, FreshState(cfg, 0, now));
      var manager := new RunLeaseManager(db, owner, cfg.leaseSeconds);
      var lease := manager.Acquire(now);
      if lease.Denied? {
        return NotAcquired(lease.why), token, start, before, hops, w;
      }
      token := lease.value.fencingToken;
      end, hops, w := RunHeld(owner, manager, lease.value.fencingToken, FreshState(cfg, token, now));
      db.Interfere();
      manager.Release();
    }
  }
}
