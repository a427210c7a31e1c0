// The executor's retry loop (app/harness/tools.py) and the runner's main loop
// (app/harness/runner.py) as the programs they are.  Between any two transactions the rest of the
// world may do anything to the database; every transaction a program performs, and everything it
// computes before the next one, is a step of the worker automaton that Protocol.dfy reasons about.
module Harness {
  import opened Wrappers
  import opened Contracts
  import opened LeaseSpec
  import opened StoreSpec
  import opened BudgetSpec
  import opened StallSpec
  import opened Keys
  import opened ToolSpec
  import opened RunnerSpec
  import opened DatabaseAdapters

  // ---- The executor ------------------------------------------------------------------------

  datatype ToolHop = ToolHop(now: int, before: Db, at: ToolPc, outcome: Outcome, after: Db, move: ToolMove)

  predicate GoodToolHop(def: ToolDef, token: nat, call: ToolCall, digest: Obj, h: ToolHop) {
    ToolStep(def, h.before, token, h.now, call, digest, h.at, h.outcome) == (h.after, h.move)
  }

  // The hops lead from position `first` to the move `last`, each starting where the one before ended.
  predicate ToolPath(def: ToolDef, token: nat, call: ToolCall, digest: Obj, first: ToolPc, hops: seq<ToolHop>,
      last: ToolMove) {
    if hops == [] then last == Next(first)
    else
      var h := hops[|hops| - 1];
      && ToolPath(def, token, call, digest, first, hops[..|hops| - 1], Next(h.at))
      && GoodToolHop(def, token, call, digest, h) && h.move == last
  }

  function FirstPc(def: ToolDef): ToolPc { if def.sideEffect then Begin else Handler(1) }

  function Quiet(giveUp: bool): Outcome { Outcome(None, false, map[], "", giveUp) }

  // How a transaction of the program ends: as it should, refused, or with an exception that nobody expected.
  datatype Io = Passed | Refused(why: Denial) | Crashed(exceptionName: string)

  // How `execute` ends: with a move of the automaton, or with an exception of the ledger or of the
  // reconciler that leaves it in the middle.
  datatype Execution = Moved(move: ToolMove) | Failed(exceptionName: string)

  function Stop(io: Io): Execution { if io.Crashed? then Failed(io.exceptionName) else Moved(Lost) }

  class ToolExecutor {
    const db: Database
    const ledger: DatabaseToolExecutionLedger
    const tools: ProposalTools
    const token: nat
    ghost var hops: seq<ToolHop>
    ghost var at: ToolMove

    constructor (db: Database, token: nat)
      ensures this.db == db && this.token == token && Wired()
      ensures fresh(ledger) && fresh(tools)
    {
      this.db, this.token := db, token;
      ledger := new DatabaseToolExecutionLedger(db, token);
      tools := new ProposalTools(db, token);
      hops, at := [], Lost;
    }

    predicate Wired() { ledger.db == db && ledger.token == token && tools.db == db && tools.token == token }

    ghost predicate Walks(def: ToolDef, call: ToolCall, digest: Obj)
      reads this
    {
      Wired() && ToolPath(def, token, call, digest, FirstPc(def), hops, at)
    }

    // The execution has come to this end.
    ghost predicate EndsWith(end: Execution)
      reads this
    {
      match end
      case Moved(m) => at == m && !m.Next?
      case Failed(_) => at.Next?
    }

    // One transaction has just been performed at position `at`.
    ghost method Record(def: ToolDef, call: ToolCall, digest: Obj, now: int, before: Db, o: Outcome)
      requires Walks(def, call, digest) && at.Next?
      requires ToolStep(def, before, token, now, call, digest, at.pc, o).0 == db.View()
      modifies this
      ensures Walks(def, call, digest) && at == ToolStep(def, before, token, now, call, digest, old(at).pc, o).1
    {
      var h := ToolHop(now, before, at.pc, o, db.View(), ToolStep(def, before, token, now, call, digest, at.pc, o).1);
      assert (hops + [h])[..|hops + [h]| - 1] == hops;
      hops, at := hops + [h], h.move;
    }

    // A ledger update outside the `try` block: losing the fence there ends the execution, and so does any
    // other error.
    method UpdateRow(def: ToolDef, call: ToolCall, digest: Obj, status: LedgerStatus, result: Option<Obj>,
        error: Option<ErrorCode>)
      returns (io: Io)
      requires Walks(def, call, digest) && at.Next? && call.key.Some?
      requires match at.pc
               case PreSucceed(r) => status == SUCCEEDED && result == Some(r) && error == None
               case LateSucceed(r) => status == SUCCEEDED && result == Some(r) && error == None
               case Restart => status == STARTED && result == None && error == None
               case MarkStarted(_) => status == STARTED && result == None && error == None
               case MarkUnknown(_, e) => status == UNKNOWN && result == None && error == Some(e.Code())
               case MarkFail(e) => status == LEDGER_FAILED && result == None && error == Some(e.Code())
               case _ => false
      modifies this, db
      ensures Walks(def, call, digest) && (!io.Passed? ==> EndsWith(Stop(io)))
      ensures io.Passed? ==> at == match old(at).pc
                                   case PreSucceed(r) => Returned(r, true)
                                   case LateSucceed(r) => Returned(r, true)
                                   case Restart => Next(Handler(1))
                                   case MarkStarted(n) => Next(Handler(n))
                                   case MarkUnknown(n, e) => Next(ToolPc.Reconcile(n, e))
                                   case MarkFail(e) => Raised(e)
                                   case _ => Lost
    {
      db.Interfere();
      var now: int, fails: bool := *, *;
      if fails {
        var name: string := *;
        return Crashed(name);
      }
      ghost var before := db.View();
      var ok := ledger.Update(LedgerKey(call.name, call.key.value), status, result, error, now);
      Record(def, call, digest, now, before, Quiet(false));
      io := if ok then Passed else Refused(StaleWorker);
    }

    method Lookup(def: ToolDef, call: ToolCall, digest: Obj, giveUp: bool) returns (io: Io, found: Option<Obj>)
      requires Walks(def, call, digest) && at.Next? && (at.pc.PreReconcile? || at.pc.Reconcile?) && call.key.Some?
      modifies this, db
      ensures Walks(def, call, digest) && (!io.Passed? ==> EndsWith(Stop(io)))
      ensures io.Passed? ==>
                at == (if old(at).pc.PreReconcile? then
                         if found.Some? then Next(PreSucceed(found.value))
                         else if def.reconcilable then Next(Restart) else Raised(ToolOutcomeUnknown)
                       else
                         if found.Some? then Next(LateSucceed(found.value))
                         else Retry(def, old(at).pc.attempt, old(at).pc.error, Quiet(giveUp), MarkStarted(old(at).pc.attempt + 1)))
    {
      db.Interfere();
      ghost var before := db.View();
      found := None;
      if def.reconcilable {
        var fails: bool := *;
        if fails {
          var name: string := *;
          return Crashed(name), None;
        }
        found := tools.Reconcile(call.name, call.key.value);
      }
      Record(def, call, digest, 0, before, Quiet(giveUp));
      io := Passed;
    }

    // The body of the `try` block up to the handler's return, with what it raised: before its transaction
    // (`!o.effect`), from inside it, or after it had committed.
    method CallHandler(def: ToolDef, call: ToolCall, digest: Obj, giveUp: bool, ghost attempt: nat)
      returns (threw: Option<Exc>, result: Obj)
      requires Walks(def, call, digest) && at == Next(Handler(attempt)) && attempt <= def.maxAttempts
      requires def.sideEffect ==> call.key.Some?
      modifies this, db
      ensures Walks(def, call, digest)
      ensures at == (if threw.Some? then OnError(def, attempt, threw.value, Quiet(giveUp))
                     else if def.sideEffect then Next(Succeed(attempt, result)) else Returned(result, false))
    {
      db.Interfere();
      var now: int, owned: bool := *, *;
      ghost var before := db.View();
      var o: Outcome := *;
      o := o.(giveUp := giveUp);
      threw, result := o.threw, o.value;
      if def.sideEffect && (threw.None? || o.effect) {
        var answer := tools.Propose(call.name, call.key.value, digest, owned, o.freshId, now);
        match answer {
          case ProposeRefused => threw := Some(OtherException);
          case EvidenceRequired => threw := Some(ApplicationError);
          case EvidenceInvalid =>
            threw := Some(ApplicationError);
            o := o.(threw := threw, effect := false);
          case Proposed(r) => result := r;
        }
      }
      Record(def, call, digest, now, before, o);
    }

    // `succeed` inside the `try` block: a lost fence or a database error is handled like a failed call.
    method RecordSuccess(def: ToolDef, call: ToolCall, digest: Obj, result: Obj, giveUp: bool, ghost attempt: nat)
      returns (threw: Option<Exc>)
      requires Walks(def, call, digest) && at == Next(Succeed(attempt, result)) && call.key.Some?
      modifies this, db
      ensures Walks(def, call, digest)
      ensures at == (if threw.Some? then OnError(def, attempt, threw.value, Quiet(giveUp)) else Returned(result, false))
    {
      db.Interfere();
      var now: int := *;
      ghost var before := db.View();
      var o: Outcome := *;
      o := o.(giveUp := giveUp);
      threw := o.threw;
      if threw.None? {
        var ok := ledger.Update(LedgerKey(call.name, call.key.value), SUCCEEDED, Some(result), None, now);
        threw := if ok then None else Some(OtherException);
      }
      Record(def, call, digest, now, before, o);
    }

    // `begin`: what it found, unless it raised.
    method BeginRow(def: ToolDef, call: ToolCall, digest: Obj) returns (io: Io, entry: BeginAnswer)
      requires Walks(def, call, digest) && at == Next(Begin) && call.key.Some?
      modifies this, db
      ensures Walks(def, call, digest) && (!io.Passed? ==> EndsWith(Stop(io)))
      ensures io.Passed? ==>
                match entry
                case BeginStale => false
                case BeginMismatch => at == Raised(ToolValidation)
                case BeginNew(_) => at == Next(Handler(1))
                case BeginExisting(row) =>
                  at == if row.status == SUCCEEDED && row.result.Some? then Returned(row.result.value, true) else Next(PreReconcile)
    {
      db.Interfere();
      var now: int, fails: bool := *, *;
      if fails {
        var name: string := *;
        return Crashed(name), BeginStale;
      }
      ghost var before := db.View();
      entry := ledger.Begin(LedgerKey(call.name, call.key.value), digest, now);
      Record(def, call, digest, now, before, Quiet(false));
      io := if entry.BeginStale? then Refused(StaleWorker) else Passed;
    }

    // `begin` and, for a row that exists, replay or reconciliation.
    method OpenRow(def: ToolDef, call: ToolCall, digest: Obj) returns (ended: Option<Execution>)
      requires Walks(def, call, digest) && at == Next(Begin) && call.key.Some?
      modifies this, db
      ensures Walks(def, call, digest)
      ensures if ended.Some? then EndsWith(ended.value) else at == Next(Handler(1))
    {
      var io, entry := BeginRow(def, call, digest);
      if !io.Passed? {
        return Some(Stop(io));
      }
      match entry {
        case BeginMismatch => return Some(Moved(Raised(ToolValidation)));
        case BeginNew(_) => return None;
        case BeginExisting(row) =>
          if row.status == SUCCEEDED && row.result.Some? {
            return Some(Moved(Returned(row.result.value, true)));
          }
      }
      ended := TakeUpRow(def, call, digest);
    }

    // A row without a stored result: reconcile it, or start it again.
    method TakeUpRow(def: ToolDef, call: ToolCall, digest: Obj) returns (ended: Option<Execution>)
      requires Walks(def, call, digest) && at == Next(PreReconcile) && call.key.Some?
      modifies this, db
      ensures Walks(def, call, digest)
      ensures if ended.Some? then EndsWith(ended.value) else at == Next(Handler(1))
    {
      var io, found := Lookup(def, call, digest, false);
      if !io.Passed? {
        return Some(Stop(io));
      }
      if found.Some? {
        io := UpdateRow(def, call, digest, SUCCEEDED, found, None);
        return Some(if io.Passed? then Moved(Returned(found.value, true)) else Stop(io));
      }
      if !def.reconcilable {
        return Some(Moved(Raised(ToolOutcomeUnknown)));
      }
      io := UpdateRow(def, call, digest, STARTED, None, None);
      ended := if io.Passed? then None else Some(Stop(io));
    }

    // The `except` block: record the failure, look for an effect, retry or give up.
    method HandleError(def: ToolDef, call: ToolCall, digest: Obj, attempt: nat, exc: Exc, giveUp: bool)
      returns (ended: Option<Execution>)
      requires Walks(def, call, digest) && at == OnError(def, attempt, exc, Quiet(giveUp))
      requires def.sideEffect ==> call.key.Some?
      modifies this, db
      ensures Walks(def, call, digest)
      ensures if ended.Some? then EndsWith(ended.value)
              else attempt < def.maxAttempts
                   && at == Next(if def.sideEffect then MarkStarted(attempt + 1) else Handler(attempt + 1))
    {
      var mapped := MapError(exc);
      var canRetry := mapped.Transient() && attempt < def.maxAttempts;
      if def.sideEffect && mapped.Transient() {
        ended := NoteUnknown(def, call, digest, attempt, mapped, giveUp);
        if ended.Some? {
          return;
        }
      }
      if !canRetry {
        if def.sideEffect && !mapped.Transient() {
          var io := UpdateRow(def, call, digest, LEDGER_FAILED, None, Some(mapped.Code()));
          if !io.Passed? {
            return Some(Stop(io));
          }
        }
        return Some(Moved(Raised(mapped)));
      }
      ended := if giveUp then Some(Moved(Raised(mapped))) else None;
    }

    // A transient error of a write: its outcome is unknown until the reconciler has looked.
    method NoteUnknown(def: ToolDef, call: ToolCall, digest: Obj, attempt: nat, mapped: ToolError, giveUp: bool)
      returns (ended: Option<Execution>)
      requires Walks(def, call, digest) && at == Next(MarkUnknown(attempt, mapped)) && call.key.Some?
      modifies this, db
      ensures Walks(def, call, digest)
      ensures if ended.Some? then EndsWith(ended.value)
              else at == Retry(def, attempt, mapped, Quiet(giveUp), MarkStarted(attempt + 1))
    {
      var io := UpdateRow(def, call, digest, UNKNOWN, None, Some(mapped.Code()));
      if !io.Passed? {
        return Some(Stop(io));
      }
      var found: Option<Obj>;
      io, found := Lookup(def, call, digest, giveUp);
      if !io.Passed? {
        return Some(Stop(io));
      }
      if found.Some? {
        io := UpdateRow(def, call, digest, SUCCEEDED, found, None);
        return Some(if io.Passed? then Moved(Returned(found.value, true)) else Stop(io));
      }
      ended := None;
    }

    // One round of the loop: the handler and, if it returned, the ledger.
    method Attempt(def: ToolDef, call: ToolCall, digest: Obj, giveUp: bool, ghost attempt: nat)
      returns (threw: Option<Exc>, result: Obj)
      requires Walks(def, call, digest) && at == Next(Handler(attempt)) && attempt <= def.maxAttempts
      requires def.sideEffect ==> call.key.Some?
      modifies this, db
      ensures Walks(def, call, digest)
      ensures at == if threw.Some? then OnError(def, attempt, threw.value, Quiet(giveUp)) else Returned(result, false)
    {
      threw, result := CallHandler(def, call, digest, giveUp, attempt);
      if threw.None? && def.sideEffect {
        threw := RecordSuccess(def, call, digest, result, giveUp, attempt);
      }
    }

    // `execute`: refused before the ledger is touched, or a path of the automaton from its first position,
    // complete unless an unexpected error of the ledger or the reconciler cuts it short.
    method Execute(def: ToolDef, call: ToolCall, digest: Obj) returns (end: Execution)
      requires Wired()
      modifies this, db
      ensures Precheck(def, call).Some? ==> end == Moved(Raised(Precheck(def, call).value)) && hops == []
      ensures Precheck(def, call).None? ==> Walks(def, call, digest) && EndsWith(end)
    {
      hops, at := [], Next(FirstPc(def));
      var refused := Precheck(def, call);
      if refused.Some? {
        return Moved(Raised(refused.value));
      }
      if def.sideEffect {
        var ended := OpenRow(def, call, digest);
        if ended.Some? {
          return ended.value;
        }
      }
      var attempt := 1;
      while attempt <= def.maxAttempts
        invariant Walks(def, call, digest)
        invariant 1 <= attempt && (attempt == 1 || attempt <= def.maxAttempts)
        invariant at == Next(if attempt == 1 || !def.sideEffect then Handler(attempt) else MarkStarted(attempt))
      {
        if attempt > 1 && def.sideEffect {
          var io := UpdateRow(def, call, digest, STARTED, None, None);
          if !io.Passed? {
            return Stop(io);
          }
        }
        var giveUp: bool := *;
        var threw, result := Attempt(def, call, digest, giveUp, attempt);
        if threw.None? {
          return Moved(Returned(result, false));
        }
        var ended := HandleError(def, call, digest, attempt, threw.value, giveUp);
        if ended.Some? {
          return ended.value;
        }
        attempt := attempt + 1;
      }
      Record(def, call, digest, 0, db.View(), Quiet(false));
      return Moved(Raised(ToolBusiness));
    }
  }

  // ---- The runner --------------------------------------------------------------------------

  datatype Hop = Hop(now: int, timeUp: bool, before: Db, from: Worker, choice: Choice, after: Db, to: Worker)

  ghost predicate GoodHop(cfg: Config, token: nat, h: Hop) {
    Work(cfg, token, h.now, h.timeUp, h.before, h.from, h.choice) == (h.after, h.to)
  }

  // The worker gets from `first` to `last` by steps of its automaton.
  ghost predicate Path(cfg: Config, token: nat, first: Worker, hops: seq<Hop>, last: Worker) {
    if hops == [] then last == first
    else
      var h := hops[|hops| - 1];
      Path(cfg, token, first, hops[..|hops| - 1], h.from) && GoodHop(cfg, token, h) && h.to == last
  }

  lemma {:induction false} PathJoin(cfg: Config, token: nat, first: Worker, a: seq<Hop>, mid: Worker, b: seq<Hop>,
      last: Worker)
    requires Path(cfg, token, first, a, mid) && Path(cfg, token, mid, b, last)
    ensures Path(cfg, token, first, a + b, last)
  {
    if b == [] {
      assert a + b == a;
    } else {
      var h := b[|b| - 1];
      PathJoin(cfg, token, first, a, mid, b[..|b| - 1], h.from);
      assert (a + b)[..|a + b| - 1] == a + b[..|b| - 1];
    }
  }

  // An executor hop, as a step of the worker that executes; `trace` is how the trace write ends that
  // follows the hop which returns.
  ghost function LiftHop(cfg: Config, w: Worker, call: ToolCall, trace: TraceWrite, h: ToolHop): Hop
    requires call.name in cfg.tools
  {
    Hop(h.now, false, h.before, w.(pc := Tool(h.at)), ToolAnswer(h.outcome, trace), h.after,
        AfterMove(w, cfg.tools[call.name], call, h.move, trace))
  }

  ghost function Lift(cfg: Config, w: Worker, call: ToolCall, trace: TraceWrite, hops: seq<ToolHop>): seq<Hop>
    requires call.name in cfg.tools
  {
    seq(|hops|, i requires 0 <= i < |hops| => LiftHop(cfg, w, call, trace, hops[i]))
  }

  // Where the executor stands does not matter for where a move leads.
  lemma {:induction false} MoveFromAnywhere(w: Worker, at: ToolPc, def: ToolDef, call: ToolCall, move: ToolMove,
      trace: TraceWrite)
    ensures AfterMove(w.(pc := Tool(at)), def, call, move, trace) == AfterMove(w, def, call, move, trace)
  {
  }

  lemma {:induction false} LiftHopIsGood(cfg: Config, token: nat, w: Worker, trace: TraceWrite, h: ToolHop)
    requires w.st.pendingCall.Some? && w.st.pendingCall.value.name in cfg.tools
    requires var call := w.st.pendingCall.value;
             GoodToolHop(cfg.tools[call.name], token, call, BoundArguments(call, w.st.observations), h)
    ensures GoodHop(cfg, token, LiftHop(cfg, w, w.st.pendingCall.value, trace, h))
  {
    var call := w.st.pendingCall.value;
    var v := w.(pc := Tool(h.at));
    MoveFromAnywhere(w, h.at, cfg.tools[call.name], call, h.move, trace);
    assert ToolWork(cfg, token, h.now, h.before, v, h.at, h.outcome, trace) == (h.after, AfterMove(v, cfg.tools[call.name], call, h.move, trace));
  }

  lemma {:induction false} LiftPath(cfg: Config, token: nat, w: Worker, trace: TraceWrite, hops: seq<ToolHop>,
      last: ToolMove)
    requires w.st.pendingCall.Some? && w.st.pendingCall.value.name in cfg.tools
    requires var call := w.st.pendingCall.value;
             ToolPath(cfg.tools[call.name], token, call, BoundArguments(call, w.st.observations), FirstPc(cfg.tools[call.name]), hops, last)
    ensures var call := w.st.pendingCall.value;
            Path(cfg, token, w.(pc := Tool(FirstPc(cfg.tools[call.name]))), Lift(cfg, w, call, trace, hops),
                 AfterMove(w, cfg.tools[call.name], call, last, trace))
  {
    var call := w.st.pendingCall.value;
    if hops != [] {
      var h := hops[|hops| - 1];
      LiftPath(cfg, token, w, trace, hops[..|hops| - 1], Next(h.at));
      var lifted := Lift(cfg, w, call, trace, hops);
      assert lifted[..|lifted| - 1] == Lift(cfg, w, call, trace, hops[..|hops| - 1]);
      LiftHopIsGood(cfg, token, w, trace, h);
    }
  }

  // Where a worker stands when a save or an `assert_active` has not passed.
  function Unwound(io: Io, w: Worker): Worker {
    match io
    case Passed => w
    case Refused(why) => if why == RunCancelled then Fail(w, CANCELLED, CodeOther("RUN_CANCELLED")) else Lose(w)
    case Crashed(n) => OnFault(w, n)
  }

  class AgentRunner {
    const cfg: Config
    const db: Database
    const checkpoints: DatabaseCheckpointStore
    const executor: ToolExecutor
    const control: RunLeaseManager
    const token: nat
    const owner: string
    var st: RuntimeState
    ghost var first: Worker
    ghost var hops: seq<Hop>
    ghost var w: Worker

    constructor (cfg: Config, db: Database, control: RunLeaseManager, token: nat, st: RuntimeState)
      requires control.db == db
      ensures this.cfg == cfg && this.db == db && this.token == token && this.owner == control.owner
      ensures this.control == control && this.st == st && Wired() && fresh(executor)
    {
      this.cfg, this.db, this.control, this.token, this.owner, this.st := cfg, db, control, token, control.owner, st;
      checkpoints := new DatabaseCheckpointStore(db, cfg.identity.runId, token);
      executor := new ToolExecutor(db, token);
      hops := [];
    }

    predicate Wired() {
      && checkpoints.db == db && checkpoints.token == token
      && executor.db == db && executor.token == token && executor.Wired()
      && control.db == db && control.owner == owner
    }

    // The lease manager still holds the lease this runner was started with.
    predicate Leased()
      reads control
    {
      control.lease.Some? && control.lease.value.fencingToken == token && control.lease.value.owner == owner
    }

    ghost predicate OnPath()
      reads this, control
    {
      Wired() && Leased() && Path(cfg, token, first, hops, w)
    }

    ghost method Record(now: int, timeUp: bool, before: Db, choice: Choice)
      requires OnPath() && Work(cfg, token, now, timeUp, before, w, choice).0 == db.View()
      modifies this`hops, this`w
      ensures OnPath() && w == Work(cfg, token, now, timeUp, before, old(w), choice).1
    {
      var h := Hop(now, timeUp, before, w, choice, db.View(), Work(cfg, token, now, timeUp, before, w, choice).1);
      assert (hops + [h])[..|hops + [h]| - 1] == hops;
      hops, w := hops + [h], h.to;
    }

    method Save() returns (io: Io)
      requires OnPath() && w.st == st && Saves(w.pc)
      modifies this`hops, this`w, db
      ensures OnPath()
      ensures io != Refused(RunCancelled)
      ensures w == (if io.Passed? then AfterSave(old(w)) else Unwound(io, old(w)))
    {
      db.Interfere();
      var now: int, fails: bool := *, *;
      ghost var before := db.View();
      if fails {
        var name: string := *;
        Record(now, false, before, Fault(name));
        return Crashed(name);
      }
      var ok := checkpoints.Save(st, now);
      Record(now, false, before, Go);
      io := if ok then Passed else Refused(StaleWorker);
    }

    // `assert_active`, with what the clock says to the budget check that follows it.
    method AssertActive() returns (io: Io, timeUp: bool)
      requires OnPath() && w.st == st && w.owner == owner && Checks(w.pc)
      modifies this`hops, this`w, db
      ensures OnPath()
      ensures w == (if io.Passed? then AfterCheck(cfg, timeUp, old(w)) else Unwound(io, old(w)))
    {
      db.Interfere();
      var now: int, fails: bool := *, *;
      timeUp := *;
      ghost var before := db.View();
      if fails {
        var name: string := *;
        Record(now, timeUp, before, Fault(name));
        return Crashed(name), timeUp;
      }
      var r := control.AssertActive(st.fencingToken, now);
      Record(now, timeUp, before, Go);
      io := match r case Granted(_) => Passed case Denied(why) => Refused(why);
    }

    // The model gateway answers, fails in its own way, or raises something unexpected; with how the trace
    // write will end that follows.
    method Decide() returns (answer: Choice, timeUp: bool)
      requires OnPath() && w.pc == Model && w.st == st
      modifies this`hops, this`w, db
      ensures OnPath()
      ensures match answer
              case ModelReply(r, trace) => ParsedAction(r.action) && w == OnModelReply(cfg, timeUp, old(w), r, trace)
              case ModelFailure(structured, attempts, trace) => w == OnModelFailure(old(w), structured, attempts, trace)
              case Fault(n) => w == OnFault(old(w), n)
              case _ => false
    {
      db.Interfere();
      answer, timeUp := *, *;
      if answer.Go? || answer.ToolAnswer? || (answer.ModelReply? && !ParsedAction(answer.result.action)) {
        answer := Fault("TypeError");
      }
      Record(0, timeUp, db.View(), answer);
    }

    // `_terminate`
    method TerminateRun(reason: TerminationReason) returns (r: Ending)
      requires OnPath() && w == Worker(owner, TermSave(reason), st.(phase := TERMINATED, terminationReason := Some(reason)))
      modifies this, db
      ensures OnPath() && w == Worker(owner, Finished(r), st)
      ensures first == old(first)
    {
      st := st.(phase := TERMINATED, terminationReason := Some(reason));
      var io := Save();
      r := match io case Passed => Ended(reason) case Refused(_) => Fenced case Crashed(_) => Broken;
    }

    // The `except` clauses of `_run`: note the code, then terminate.
    method FailRun(reason: TerminationReason, code: ErrorCode) returns (r: Ending)
      requires OnPath()
      requires w == Worker(owner, TermSave(reason), st.(lastError := Some(code), phase := TERMINATED, terminationReason := Some(reason)))
      modifies this, db
      ensures OnPath() && w == Worker(owner, Finished(r), st)
      ensures first == old(first)
    {
      st := st.(lastError := Some(code));
      r := TerminateRun(reason);
    }

    // The `except` clauses, for a save or an `assert_active` that has not passed.
    method Unwind(io: Io, ghost from: Worker) returns (r: Ending)
      requires OnPath() && !io.Passed? && w == Unwound(io, from)
      requires from.owner == owner && from.st == st && !from.pc.TermSave? && !from.pc.Load?
      modifies this, db
      ensures OnPath() && w == Worker(owner, Finished(r), st)
      ensures first == old(first)
    {
      match io {
        case Refused(why) =>
          if why == RunCancelled {
            r := FailRun(CANCELLED, CodeOther("RUN_CANCELLED"));
          } else {
            r := Fenced;
          }
        case Crashed(n) => r := FailRun(INTERNAL_ERROR, CodeOther(n));
      }
    }

    // `_complete`
    method Complete() returns (r: Ending)
      requires OnPath() && w == Worker(owner, CompleteGuard, st)
      modifies this, db
      ensures OnPath() && w == Worker(owner, Finished(r), st)
      ensures first == old(first)
    {
      ghost var from := w;
      var io, _ := AssertActive();
      if !io.Passed? {
        r := Unwind(io, from);
        return;
      }
      if st.finalAction.None? {
        r := TerminateRun(INVALID_ACTION);
        return;
      }
      var action := st.finalAction.value;
      st := st.(phase := TERMINATED, terminationReason := Some(COMPLETED), lastError := None);
      from := w;
      io := Save();
      if !io.Passed? {
        r := Unwind(io, from);
        return;
      }
      r := Completed(action);
    }

    // The local half of `_execute_pending_tool`, once the trace row has been written.
    method Observe(def: ToolDef, call: ToolCall, result: Obj, replayed: bool,
        ghost before: RuntimeState) returns (stalled: bool)
      requires OnPath() && w == AfterTool(Worker(owner, ToolGuard, before), def, call, result, replayed)
      requires st == Executed(before, call, result, replayed)
      modifies this`st
      ensures OnPath() && w == Worker(owner, PostGuard(stalled), st) && st.loopCount == old(st.loopCount)
      ensures old(st.finalAction).None? ==> (st.finalAction.Some? <==> st.phase == FINAL_PENDING)
    {
      var seen := Observation(call, result, replayed);
      st := st.(pendingCall := None, pendingStep := None);
      stalled := false;
      if def.terminal.Some? {
        st := st.(finalAction := Some(FinalActionOf(def.terminal.value, call.arguments)), phase := FINAL_PENDING);
      } else {
        st := st.(phase := READY, observationPrints := Window(st.observationPrints + [ObservationFingerprint(seen)]));
        var alarm := ObservationAlarm(st.observationPrints);
        if alarm.Some? {
          st := st.(stallReason := alarm);
        }
        stalled := alarm.Some?;
      }
    }

    // `_execute_pending_tool` up to the call of `execute`.
    method EnterPendingTool() returns (ended: Option<Ending>)
      requires OnPath() && w == Worker(owner, ToolGuard, st)
      modifies this, db
      ensures OnPath() && first == old(first)
      ensures if ended.Some? then w == Worker(owner, Finished(ended.value), st)
              else
                && st == old(st) && st.pendingCall.Some? && st.pendingCall.value.name in cfg.tools
                && var call := st.pendingCall.value;
                   var def := cfg.tools[call.name];
                   w == (if Precheck(def, call).Some?
                         then OnToolMove(Worker(owner, ToolGuard, st), def, call, Raised(Precheck(def, call).value))
                         else Worker(owner, Tool(FirstPc(def)), st))
    {
      ghost var from := w;
      var io, timeUp := AssertActive();
      var r: Ending;
      if !io.Passed? {
        r := Unwind(io, from);
        return Some(r);
      }
      if st.pendingCall.None? || st.pendingStep.None? {
        r := FailRun(INTERNAL_ERROR, CodeOther("RuntimeError"));
        return Some(r);
      }
      var over := CheckBeforeTool(cfg.budget, st, timeUp);
      if over.Some? {
        r := FailRun(over.value, CodeBudget(over.value));
        return Some(r);
      }
      if st.pendingCall.value.name !in cfg.tools {
        r := FailRun(TerminationReason.UNKNOWN_TOOL, UnknownTool.Code());
        return Some(r);
      }
      ended := None;
    }

    // `execute`, as one stretch of the runner's own path, and how the trace write ends that follows.
    method ExecuteCall(def: ToolDef, call: ToolCall) returns (end: Execution, trace: TraceWrite)
      requires OnPath() && st.pendingCall == Some(call) && call.name in cfg.tools && def == cfg.tools[call.name]
      requires w == (if Precheck(def, call).Some?
                     then OnToolMove(Worker(owner, ToolGuard, st), def, call, Raised(Precheck(def, call).value))
                     else Worker(owner, Tool(FirstPc(def)), st))
      modifies this`hops, this`w, db, executor
      ensures OnPath() && first == old(first)
      ensures match end
              case Moved(m) => !m.Next? && w == AfterMove(Worker(owner, ToolGuard, st), def, call, m, trace)
              case Failed(n) => w == Fail(Worker(owner, ToolGuard, st), INTERNAL_ERROR, CodeOther(n))
    {
      trace := *;
      end := executor.Execute(def, call, BoundArguments(call, st.observations));
      if Precheck(def, call).None? {
        ghost var from := Worker(owner, ToolGuard, st);
        Follow(from, def, call, trace, executor.hops, executor.at);
        if end.Failed? {
          Record(0, false, db.View(), Fault(end.exceptionName));
        }
      }
    }

    // Appends the executor's path to the runner's.
    ghost method Follow(from: Worker, def: ToolDef, call: ToolCall, trace: TraceWrite, stretch: seq<ToolHop>,
        last: ToolMove)
      requires OnPath() && from.st.pendingCall == Some(call) && call.name in cfg.tools && def == cfg.tools[call.name]
      requires w == from.(pc := Tool(FirstPc(def)))
      requires ToolPath(def, token, call, BoundArguments(call, from.st.observations), FirstPc(def), stretch, last)
      modifies this`hops, this`w
      ensures OnPath() && w == AfterMove(from, def, call, last, trace)
    {
      var lifted := Lift(cfg, from, call, trace, stretch);
      LiftPath(cfg, token, from, trace, stretch, last);
      PathJoin(cfg, token, first, hops, w, lifted, AfterMove(from, def, call, last, trace));
      hops, w := hops + lifted, AfterMove(from, def, call, last, trace);
    }

    // The tail of `_execute_pending_tool`.
    method KeepResult(ghost stalled: bool) returns (ended: Option<Ending>)
      requires OnPath() && w == Worker(owner, PostGuard(stalled), st)
      modifies this, db
      ensures OnPath() && first == old(first)
      ensures if ended.Some? then w == Worker(owner, Finished(ended.value), st)
              else w == AfterSave(Worker(owner, PostSave(stalled), st)) && st == old(st)
    {
      ghost var from := w;
      var io, _ := AssertActive();
      if io.Passed? {
        ended := SaveOrEnd();
      } else {
        var r := Unwind(io, from);
        ended := Some(r);
      }
    }

    // `_execute_pending_tool`: ends the run, or leaves the result saved.
    method ExecutePendingTool() returns (ended: Option<Ending>, stalled: bool)
      requires OnPath() && w == Worker(owner, ToolGuard, st)
      modifies this, db, executor
      ensures OnPath() && first == old(first)
      ensures if ended.Some? then w == Worker(owner, Finished(ended.value), st)
              else w == AfterSave(Worker(owner, PostSave(stalled), st)) && st.loopCount == old(st.loopCount)
                   && (old(st.finalAction).None? ==> (st.finalAction.Some? <==> st.phase == FINAL_PENDING))
    {
      stalled := false;
      ended := EnterPendingTool();
      if ended.Some? {
        return;
      }
      var call := st.pendingCall.value;
      var def := cfg.tools[call.name];
      var end, trace := ExecuteCall(def, call);
      var r: Ending;
      match end {
        case Failed(n) =>
          r := FailRun(INTERNAL_ERROR, CodeOther(n));
          return Some(r), false;
        case Moved(move) =>
          match move {
            case Raised(e) =>
              r := FailRun(e.Reason(), e.Code());
              return Some(r), false;
            case Lost =>
              return Some(Fenced), false;
            case Returned(result, replayed) =>
              ended, stalled := TraceAndObserve(def, call, result, replayed, trace);
          }
      }
      if ended.None? {
        ended := KeepResult(stalled);
      }
    }

    // The result is counted, traced and observed.
    method TraceAndObserve(def: ToolDef, call: ToolCall, result: Obj, replayed: bool, trace: TraceWrite)
      returns (ended: Option<Ending>, stalled: bool)
      requires OnPath() && w == AfterMove(Worker(owner, ToolGuard, st), def, call, Returned(result, replayed), trace)
      modifies this, db
      ensures OnPath() && first == old(first)
      ensures if ended.Some? then w == Worker(owner, Finished(ended.value), st)
              else w == Worker(owner, PostGuard(stalled), st) && st.loopCount == old(st.loopCount)
                   && (old(st.finalAction).None? ==> (st.finalAction.Some? <==> st.phase == FINAL_PENDING))
    {
      ghost var before := st;
      st := Executed(st, call, result, replayed);
      stalled := false;
      match trace {
        case WriteRefused =>
          ended := Some(Fenced);
        case WriteFailed(n) =>
          var r := FailRun(INTERNAL_ERROR, CodeOther(n));
          ended := Some(r);
        case Written =>
          ended := None;
          stalled := Observe(def, call, result, replayed, before);
      }
    }

    // Saves the state and carries on, or ends the run.
    method SaveOrEnd() returns (ended: Option<Ending>)
      requires OnPath() && w.st == st && w.owner == owner && Saves(w.pc) && !w.pc.TermSave?
      modifies this, db
      ensures OnPath() && first == old(first)
      ensures if ended.Some? then w == Worker(owner, Finished(ended.value), st) else st == old(st) && w == AfterSave(old(w))
    {
      ghost var from := w;
      var io := Save();
      ended := None;
      if !io.Passed? {
        var r := Unwind(io, from);
        ended := Some(r);
      }
    }

    // The model chose a tool.
    method TakeToolCall(call: ToolCall, timeUp: bool) returns (ended: Option<Ending>)
      requires OnPath() && w == OnToolCall(cfg, timeUp, Worker(owner, Model, st), call)
      modifies this, db, executor
      ensures OnPath() && first == old(first)
      ensures if ended.Some? then w == Worker(owner, Finished(ended.value), st)
              else w == Worker(owner, Guard, st) && st.loopCount == old(st.loopCount)
    {
      var r: Ending;
      st := st.(actionPrints := Window(st.actionPrints + [ActionFingerprint(call)]));
      var alarm := ActionAlarm(st.actionPrints);
      if alarm.Some? {
        st := st.(stallReason := alarm);
        r := StopStalled();
        return Some(r);
      }
      var over := CheckBeforeTool(cfg.budget, st, timeUp);
      if over.Some? {
        r := FailRun(over.value, CodeBudget(over.value));
        return Some(r);
      }
      st := st.(pendingCall := Some(call), pendingStep := Some(StepId(st)), phase := TOOL_PENDING);
      ended := PerformCall();
    }

    // A repeated action: the state is saved as it is, then the run ends.
    method StopStalled() returns (r: Ending)
      requires OnPath() && w == Worker(owner, SaveStalled, st)
      modifies this, db
      ensures OnPath() && first == old(first) && w == Worker(owner, Finished(r), st)
    {
      var ended := SaveOrEnd();
      if ended.Some? {
        return ended.value;
      }
      r := TerminateRun(LOOP_STALLED);
    }

    // The call is saved before it is executed.
    method PerformCall() returns (ended: Option<Ending>)
      requires OnPath() && w == Worker(owner, SaveTool, st)
      modifies this, db, executor
      ensures OnPath() && first == old(first)
      ensures if ended.Some? then w == Worker(owner, Finished(ended.value), st)
              else w == Worker(owner, Guard, st) && st.loopCount == old(st.loopCount)
    {
      ended := SaveOrEnd();
      if ended.Some? {
        return;
      }
      var stalled: bool;
      ended, stalled := ExecutePendingTool();
      if ended.Some? {
        return;
      }
      var r: Ending;
      if stalled {
        r := TerminateRun(LOOP_STALLED);
        ended := Some(r);
      } else if st.phase == FINAL_PENDING {
        r := Complete();
        ended := Some(r);
      }
    }

    // The model decided to finish.
    method TakeFinish(action: ModelAction) returns (r: Ending)
      requires OnPath() && w == OnFinish(Worker(owner, Model, st), action)
      modifies this, db
      ensures OnPath() && w == Worker(owner, Finished(r), st)
      ensures first == old(first)
    {
      if action.toolCall.Some? || action.decision.None? {
        r := TerminateRun(INVALID_ACTION);
        return;
      }
      st := st.(finalAction := Some(action), pendingStep := Some(StepId(st)), phase := FINAL_PENDING);
      var ended := SaveOrEnd();
      if ended.Some? {
        return ended.value;
      }
      r := Complete();
    }

    // The model answered: count it, check the budget, trace it, act on it.
    method TakeReply(result: ModelResult, trace: TraceWrite, timeUp: bool) returns (ended: Option<Ending>)
      requires OnPath()
      requires w == OnCounted(cfg, timeUp, Worker(owner, Model, AfterModel(st, result)), result.action, trace)
      modifies this, db, executor
      ensures OnPath() && first == old(first)
      ensures if ended.Some? then w == Worker(owner, Finished(ended.value), st)
              else w == Worker(owner, Guard, st) && st.loopCount == old(st.loopCount) + 1
    {
      st := st.(loopCount := st.loopCount + 1, modelCalls := st.modelCalls + result.ModelCallCount());
      st := st.(inputTokens := st.inputTokens + result.inputTokens, outputTokens := st.outputTokens + result.outputTokens);
      st := st.(repairCalls := st.repairCalls + result.repairCalls);
      assert st == AfterModel(old(st), result);
      var r: Ending;
      var over := CheckAfterModel(cfg.budget, st, timeUp);
      if over.Some? {
        r := FailRun(over.value, CodeBudget(over.value));
        return Some(r);
      }
      match trace {
        case WriteRefused => return Some(Fenced);
        case WriteFailed(n) =>
          r := FailRun(INTERNAL_ERROR, CodeOther(n));
          return Some(r);
        case Written =>
      }
      ended := ActOnReply(BindIdempotency(result.action, cfg.identity.runId, st.loopCount), timeUp);
    }

    method ActOnReply(action: ModelAction, timeUp: bool) returns (ended: Option<Ending>)
      requires OnPath() && w == OnAction(cfg, timeUp, Worker(owner, Model, st), action)
      modifies this, db, executor
      ensures OnPath() && first == old(first)
      ensures if ended.Some? then w == Worker(owner, Finished(ended.value), st)
              else w == Worker(owner, Guard, st) && st.loopCount == old(st.loopCount)
    {
      var r: Ending;
      if action.finish {
        r := TakeFinish(action);
        return Some(r);
      }
      if action.toolCall.None? {
        r := TerminateRun(INVALID_ACTION);
        return Some(r);
      }
      ended := TakeToolCall(action.toolCall.value, timeUp);
    }

    // The gateway failed in its own way: count and trace its requests, then end the run.
    method TakeFailure(structured: bool, attempts: seq<ModelAttempt>, trace: TraceWrite) returns (r: Ending)
      requires OnPath() && w == OnModelFailure(Worker(owner, Model, st), structured, attempts, trace)
      modifies this, db
      ensures OnPath() && first == old(first) && w == Worker(owner, Finished(r), st)
    {
      st := AfterModelFailure(st, structured, attempts);
      match trace {
        case WriteRefused => r := Fenced;
        case WriteFailed(n) => r := FailRun(INTERNAL_ERROR, CodeOther(n));
        case Written =>
          if structured {
            r := FailRun(TerminationReason.STRUCTURED_OUTPUT_ERROR, CodeOther("STRUCTURED_OUTPUT_ERROR"));
          } else {
            r := FailRun(TerminationReason.MODEL_UNAVAILABLE, CodeModelUnavailable);
          }
      }
    }

    // One round of the main loop.
    method TakeStep() returns (ended: Option<Ending>)
      requires OnPath() && w == Worker(owner, Guard, st)
      modifies this, db, executor
      ensures OnPath() && first == old(first)
      ensures if ended.Some? then w == Worker(owner, Finished(ended.value), st)
              else w == Worker(owner, Guard, st) && old(st.loopCount) < cfg.budget.maxSteps && st.loopCount == old(st.loopCount) + 1
    {
      var r: Ending;
      ghost var from := w;
      var io, timeUp := AssertActive();
      if !io.Passed? {
        r := Unwind(io, from);
        return Some(r);
      }
      var over := CheckBeforeModel(cfg.budget, st, timeUp);
      if over.Some? {
        r := FailRun(over.value, CodeBudget(over.value));
        return Some(r);
      }
      var answer: Choice;
      answer, timeUp := Decide();
      match answer {
        case ModelReply(result, trace) =>
          ended := TakeReply(result, trace, timeUp);
        case ModelFailure(structured, attempts, trace) =>
          r := TakeFailure(structured, attempts, trace);
          ended := Some(r);
        case Fault(name) =>
          r := FailRun(INTERNAL_ERROR, CodeOther(name));
          ended := Some(r);
      }
    }

    // `_run`: for every model, every tool and every interference it terminates, on a path of the
    // worker automaton from where the state it was given starts.
    method Run() returns (r: Ending)
      requires Wired() && Leased()
      requires Tidy(st)
      modifies this, db, executor
      ensures OnPath() && first == Worker(owner, Dispatch(old(st)), old(st)) && w == Worker(owner, Finished(r), st)
    {
      hops := [];
      first := Worker(owner, Dispatch(st), st);
      w := first;
      if st.phase == TERMINATED && st.terminationReason.Some? {
        if st.terminationReason.value == COMPLETED && st.finalAction.Some? {
          return Completed(st.finalAction.value);
        }
        return Ended(st.terminationReason.value);
      }
      if st.phase == FINAL_PENDING && st.finalAction.Some? {
        r := Complete();
        return;
      }
      var ended: Option<Ending>;
      if st.phase == TOOL_PENDING {
        var stalled: bool;
        ended, stalled := ExecutePendingTool();
        if ended.Some? {
          return ended.value;
        }
        if stalled {
          r := TerminateRun(LOOP_STALLED);
          return;
        }
        if st.finalAction.Some? {
          r := Complete();
          return;
        }
      }
      while true
        invariant OnPath() && w == Worker(owner, Guard, st) && first == Worker(owner, Dispatch(old(st)), old(st))
        decreases cfg.budget.maxSteps - st.loopCount
      {
        ended := TakeStep();
        if ended.Some? {
          return ended.value;
        }
      }
    }
  }
}
