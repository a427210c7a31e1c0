// What a run has really done: the model's replies, the gateway's failures and the executed calls that led to
// a state, across crashes and resumes.  The counters, the observations and the decision of every state are
// read off this list, and the limits of the budget are limits of what was spent.
module ProtocolHistory {
  import opened Wrappers
  import opened Contracts
  import opened LeaseSpec
  import opened StoreSpec
  import opened Keys
  import opened ToolSpec
  import opened RunnerSpec
  import opened Protocol
  import opened ProtocolInvariant
  import opened ProtocolTheorems
  import opened Harness

  datatype Deed =
    | Replied(result: ModelResult)
    | FailedToReply(structured: bool, attempts: seq<ModelAttempt>)
    | ExecutedCall(call: ToolCall, output: Obj, replayed: bool)

  function DeedsOfMove(call: ToolCall, move: ToolMove): seq<Deed> {
    match move
    case Returned(result, replayed) => [ExecutedCall(call, result, replayed)]
    case _ => []
  }

  // What a step does, from where the worker stands and what it meets: at most one deed.
  function DeedsOf(cfg: Config, token: nat, now: int, db: Db, w: Worker, ch: Choice): seq<Deed> {
    if w.pc.Model? && ch.ModelReply? && ParsedAction(ch.result.action) then [Replied(ch.result)]
    else if w.pc.Model? && ch.ModelFailure? then [FailedToReply(ch.structured, ch.attempts)]
    else if w.pc.Tool? && ch.ToolAnswer? && w.st.pendingCall.Some? && w.st.pendingCall.value.name in cfg.tools then
      var call := w.st.pendingCall.value;
      DeedsOfMove(call, ToolStep(cfg.tools[call.name], db, token, now, call, BoundArguments(call, w.st.observations), w.pc.at, ch.outcome).1)
    else []
  }

  // ---- What it costs -----------------------------------------------------------------------

  datatype Bill = Bill(steps: nat, modelCalls: nat, inputTokens: nat, outputTokens: nat, repairs: nat, toolCalls: nat) {
    function Plus(b: Bill): Bill {
      Bill(steps + b.steps, modelCalls + b.modelCalls, inputTokens + b.inputTokens, outputTokens + b.outputTokens,
           repairs + b.repairs, toolCalls + b.toolCalls)
    }
  }

  function InputOfFirst(attempts: seq<ModelAttempt>, k: nat): nat
    requires k <= |attempts|
  {
    if k == 0 then 0 else InputOfFirst(attempts, k - 1) + attempts[k - 1].inputTokens
  }

  function OutputOfFirst(attempts: seq<ModelAttempt>, k: nat): nat
    requires k <= |attempts|
  {
    if k == 0 then 0 else OutputOfFirst(attempts, k - 1) + attempts[k - 1].outputTokens
  }

  // A reply is one step and as many model calls as it lists requests, or one; a failure likewise, and its
  // requests after the first are repairs if the output was malformed; an executed call is one tool call.
  function Price(d: Deed): Bill {
    match d
    case Replied(r) =>
      Bill(1, if |r.attempts| == 0 then 1 else |r.attempts|, r.inputTokens, r.outputTokens, r.repairCalls, 0)
    case FailedToReply(structured, a) =>
      Bill(1, |a|, InputOfFirst(a, |a|), OutputOfFirst(a, |a|), if structured && |a| > 1 then |a| - 1 else 0, 0)
    case ExecutedCall(_, _, _) => Bill(0, 0, 0, 0, 0, 1)
  }

  function Spent(deeds: seq<Deed>): Bill {
    if deeds == [] then Bill(0, 0, 0, 0, 0, 0) else Spent(deeds[..|deeds| - 1]).Plus(Price(deeds[|deeds| - 1]))
  }

  // The counters of a state.
  function BillOf(st: RuntimeState): Bill {
    Bill(st.loopCount, st.modelCalls, st.inputTokens, st.outputTokens, st.repairCalls, st.toolCalls)
  }

  lemma {:induction false} TallyIsSum(attempts: seq<ModelAttempt>, k: nat)
    requires k <= |attempts|
    ensures TallyOfFirst(attempts, k).inputTokens == InputOfFirst(attempts, k)
    ensures TallyOfFirst(attempts, k).outputTokens == OutputOfFirst(attempts, k)
  {
    if k > 0 { TallyIsSum(attempts, k - 1); }
  }

  lemma {:induction false} SpentOnMore(deeds: seq<Deed>, d: Deed)
    ensures Spent(deeds + [d]) == Spent(deeds).Plus(Price(d))
  {
    assert (deeds + [d])[..|deeds + [d]| - 1] == deeds;
  }

  // ---- What was seen and decided -----------------------------------------------------------

  // What the model is shown of an executed call.
  predicate Shows(o: Obj, d: Deed) {
    && d.ExecutedCall? && o.Keys == {"tool", "result", "replayed"}
    && o["tool"] == JStr(d.call.name) && o["result"] == JObj(d.output) && o["replayed"] == JBool(d.replayed)
  }

  // The observations that follow from the deeds: one for each executed call, in order.
  predicate Witnessed(observations: seq<Obj>, deeds: seq<Deed>)
    decreases |deeds|
  {
    if deeds == [] then observations == []
    else
      var front, last := deeds[..|deeds| - 1], deeds[|deeds| - 1];
      if last.ExecutedCall? then
        observations != [] && Shows(observations[|observations| - 1], last) && Witnessed(observations[..|observations| - 1], front)
      else Witnessed(observations, front)
  }

  // The deed settles this decision: the model's own finishing reply, or a terminal tool with what the model
  // said in the call.
  predicate Makes(cfg: Config, d: Deed, a: ModelAction) {
    match d
    case Replied(r) => r.action.finish && r.action.toolCall.None? && a == r.action
    case FailedToReply(_, _) => false
    case ExecutedCall(call, _, _) =>
      && a.finish && a.toolCall.None? && a.decision.Some?
      && call.name in cfg.tools && a.decision == cfg.tools[call.name].terminal
      && ("confidence" in call.arguments && call.arguments["confidence"].JReal? ==> a.confidence == call.arguments["confidence"].ratio)
      && ("confidence" in call.arguments && call.arguments["confidence"].JInt? ==> a.confidence == call.arguments["confidence"].number as real)
      && ("reason_codes" in call.arguments && call.arguments["reason_codes"].JArr? ==>
            var items := call.arguments["reason_codes"].items;
            |a.reasonCodes| == |items| && forall i | 0 <= i < |items| && items[i].JStr? :: a.reasonCodes[i] == items[i].text)
  }

  // The state is what the deeds have made of it.
  ghost predicate Tells(cfg: Config, st: RuntimeState, deeds: seq<Deed>) {
    && BillOf(st) == Spent(deeds)
    && st.observations != [] && st.observations[0] == cfg.firstObservation && Witnessed(st.observations[1..], deeds)
    && (st.finalAction.Some? ==> deeds != [] && Makes(cfg, deeds[|deeds| - 1], st.finalAction.value))
  }

  // Where no decision has been made yet.
  predicate Undecided(w: Worker) {
    && (w.pc.Guard? || w.pc.Model? || w.pc.SaveTool? || w.pc.SaveStalled? || w.pc.ToolGuard? || w.pc.Tool? ==> w.st.finalAction.None?)
    && (w.pc.PostGuard? || w.pc.PostSave? ==> w.st.finalAction.Some? ==> w.st.phase == FINAL_PENDING)
  }

  ghost predicate WorkerTold(cfg: Config, w: Worker, deeds: seq<Deed>) { Tells(cfg, w.st, deeds) && Undecided(w) }

  // The state goes on as before: same counters, observations and decision.
  predicate GoesOn(st: RuntimeState, st': RuntimeState) {
    BillOf(st') == BillOf(st) && st'.observations == st.observations && st'.finalAction == st.finalAction
  }

  lemma {:induction false} CheckGoesOn(cfg: Config, db: Db, token: nat, now: int, timeUp: bool, w: Worker)
    requires Checks(w.pc)
    ensures var w' := IfActive(db, token, now, w, AfterCheck(cfg, timeUp, w)); GoesOn(w.st, w'.st) && (Undecided(w) ==> Undecided(w'))
  {
  }

  lemma {:induction false} SaveGoesOn(db: Db, token: nat, now: int, w: Worker)
    requires Saves(w.pc)
    ensures var w' := SaveThen(db, token, now, w, AfterSave(w)).1; GoesOn(w.st, w'.st) && (Undecided(w) ==> Undecided(w'))
  {
  }

  // What a reply or a failure makes of a state: counted, and decided if it finishes.
  lemma {:induction false} ReplyTells(cfg: Config, timeUp: bool, w: Worker, r: ModelResult, trace: TraceWrite)
    requires w.pc.Model?
    ensures
      var w' := OnModelReply(cfg, timeUp, w, r, trace);
      && BillOf(w'.st) == BillOf(w.st).Plus(Price(Replied(r))) && w'.st.observations == w.st.observations
      && (Undecided(w) && w'.st.finalAction.Some? ==> Makes(cfg, Replied(r), w'.st.finalAction.value))
      && (Undecided(w) ==> Undecided(w'))
  {
    var w1 := w.(st := AfterModel(w.st, r));
    ActionTells(cfg, timeUp, w1, BindIdempotency(r.action, cfg.identity.runId, w1.st.loopCount));
  }

  lemma {:induction false} ActionTells(cfg: Config, timeUp: bool, w: Worker, action: ModelAction)
    requires w.pc.Model?
    ensures
      var w' := OnAction(cfg, timeUp, w, action);
      && BillOf(w'.st) == BillOf(w.st) && w'.st.observations == w.st.observations && (Undecided(w) ==> Undecided(w'))
      && (Undecided(w) && w'.st.finalAction.Some? ==> action.finish && action.toolCall.None? && w'.st.finalAction == Some(action))
  {
  }

  lemma {:induction false} FailureTells(w: Worker, structured: bool, attempts: seq<ModelAttempt>, trace: TraceWrite)
    requires w.pc.Model?
    ensures
      var w' := OnModelFailure(w, structured, attempts, trace);
      && BillOf(w'.st) == BillOf(w.st).Plus(Price(FailedToReply(structured, attempts)))
      && w'.st.observations == w.st.observations && (Undecided(w) ==> w'.st.finalAction.None? && Undecided(w'))
  {
    TallyIsSum(attempts, |attempts|);
  }

  // What a returned call makes of it: counted and observed, and decided if the tool is terminal.
  lemma {:induction false} ReturnTells(cfg: Config, w: Worker, call: ToolCall, result: Obj, replayed: bool,
      trace: TraceWrite)
    requires w.pc.Tool? && call.name in cfg.tools
    ensures
      var w' := AfterMove(w, cfg.tools[call.name], call, Returned(result, replayed), trace);
      var d := ExecutedCall(call, result, replayed);
      && BillOf(w'.st) == BillOf(w.st).Plus(Price(d))
      && w'.st.observations == w.st.observations + [Observation(call, result, replayed)]
      && Shows(Observation(call, result, replayed), d)
      && (Undecided(w) && w'.st.finalAction.Some? ==> Makes(cfg, d, w'.st.finalAction.value))
      && (Undecided(w) ==> Undecided(w'))
  {
  }

  // A reply or a failure adds a deed and no observation.
  lemma {:induction false} TellsMore(cfg: Config, st: RuntimeState, deeds: seq<Deed>, st': RuntimeState, d: Deed)
    requires Tells(cfg, st, deeds) && BillOf(st') == BillOf(st).Plus(Price(d)) && !d.ExecutedCall?
    requires st'.observations == st.observations && (st'.finalAction.Some? ==> Makes(cfg, d, st'.finalAction.value))
    ensures Tells(cfg, st', deeds + [d])
  {
    SpentOnMore(deeds, d);
    assert (deeds + [d])[..|deeds + [d]| - 1] == deeds;
  }

  // A returned call adds a deed and its observation.
  lemma {:induction false} TellsSeen(cfg: Config, st: RuntimeState, deeds: seq<Deed>, st': RuntimeState, d: Deed,
      seen: Obj)
    requires Tells(cfg, st, deeds) && BillOf(st') == BillOf(st).Plus(Price(d)) && Shows(seen, d)
    requires st'.observations == st.observations + [seen] && (st'.finalAction.Some? ==> Makes(cfg, d, st'.finalAction.value))
    ensures Tells(cfg, st', deeds + [d])
  {
    SpentOnMore(deeds, d);
    assert (deeds + [d])[..|deeds + [d]| - 1] == deeds;
    var rest := st'.observations[1..];
    assert rest == st.observations[1..] + [seen];
    assert rest[..|rest| - 1] == st.observations[1..];
  }

  lemma {:induction false} MoveTells(cfg: Config, w: Worker, call: ToolCall, move: ToolMove, trace: TraceWrite,
      deeds: seq<Deed>)
    requires w.pc.Tool? && call.name in cfg.tools
    ensures WorkerTold(cfg, w, deeds) ==>
              WorkerTold(cfg, AfterMove(w, cfg.tools[call.name], call, move, trace), deeds + DeedsOfMove(call, move))
  {
    assert deeds + [] == deeds;
    var def := cfg.tools[call.name];
    if !WorkerTold(cfg, w, deeds) {
    } else if move.Returned? {
      ReturnTells(cfg, w, call, move.result, move.replayed, trace);
      TellsSeen(cfg, w.st, deeds, AfterMove(w, def, call, move, trace).st, ExecutedCall(call, move.result, move.replayed),
                Observation(call, move.result, move.replayed));
    } else {
      OtherMoveGoesOn(w, def, call, move, trace);
    }
  }

  lemma {:induction false} ToolTells(cfg: Config, token: nat, now: int, db: Db, w: Worker, o: Outcome,
      trace: TraceWrite, deeds: seq<Deed>)
    requires w.pc.Tool?
    ensures WorkerTold(cfg, w, deeds) ==>
              WorkerTold(cfg, ToolWork(cfg, token, now, db, w, w.pc.at, o, trace).1,
                         deeds + DeedsOf(cfg, token, now, db, w, ToolAnswer(o, trace)))
  {
    var done := DeedsOf(cfg, token, now, db, w, ToolAnswer(o, trace));
    var after := ToolWork(cfg, token, now, db, w, w.pc.at, o, trace).1;
    if w.st.pendingCall.Some? && w.st.pendingCall.value.name in cfg.tools {
      var call := w.st.pendingCall.value;
      var def := cfg.tools[call.name];
      var move := ToolStep(def, db, token, now, call, BoundArguments(call, w.st.observations), w.pc.at, o).1;
      assert done == DeedsOfMove(call, move) && after == AfterMove(w, def, call, move, trace);
      MoveTells(cfg, w, call, move, trace, deeds);
    } else {
      assert deeds + done == deeds && after == w;
    }
  }

  lemma {:induction false} OtherMoveGoesOn(w: Worker, def: ToolDef, call: ToolCall, move: ToolMove, trace: TraceWrite)
    requires w.pc.Tool? && !move.Returned?
    ensures var w' := AfterMove(w, def, call, move, trace); GoesOn(w.st, w'.st) && (Undecided(w) ==> Undecided(w'))
  {
  }

  lemma {:induction false} ModelTells(cfg: Config, token: nat, now: int, timeUp: bool, db: Db, w: Worker, ch: Choice,
      deeds: seq<Deed>)
    requires w.pc.Model? && !ch.Fault?
    ensures WorkerTold(cfg, w, deeds) ==>
              WorkerTold(cfg, ModelWork(cfg, timeUp, w, ch), deeds + DeedsOf(cfg, token, now, db, w, ch))
  {
    assert deeds + [] == deeds;
    if !WorkerTold(cfg, w, deeds) {
    } else if ch.ModelReply? && ParsedAction(ch.result.action) {
      ReplyTells(cfg, timeUp, w, ch.result, ch.trace);
      TellsMore(cfg, w.st, deeds, OnModelReply(cfg, timeUp, w, ch.result, ch.trace).st, Replied(ch.result));
    } else if ch.ModelFailure? {
      FailureTells(w, ch.structured, ch.attempts, ch.trace);
      TellsMore(cfg, w.st, deeds, OnModelFailure(w, ch.structured, ch.attempts, ch.trace).st, FailedToReply(ch.structured, ch.attempts));
    }
  }

  // Every step of a worker past its load makes of the state what its deeds say.
  lemma {:induction false} StepTells(cfg: Config, token: nat, now: int, timeUp: bool, db: Db, w: Worker, ch: Choice,
      deeds: seq<Deed>)
    requires !w.pc.Load?
    ensures WorkerTold(cfg, w, deeds) ==>
              WorkerTold(cfg, Work(cfg, token, now, timeUp, db, w, ch).1, deeds + DeedsOf(cfg, token, now, db, w, ch))
  {
    if !w.pc.Finished? && !ch.Fault? && w.pc.Model? {
      ModelTells(cfg, token, now, timeUp, db, w, ch, deeds);
    } else if !w.pc.Finished? && !ch.Fault? && w.pc.Tool? && ch.ToolAnswer? {
      ToolTells(cfg, token, now, db, w, ch.outcome, ch.trace, deeds);
    } else {
      assert deeds + DeedsOf(cfg, token, now, db, w, ch) == deeds;
      QuietStep(cfg, token, now, timeUp, db, w, ch);
    }
  }

  // A step without a deed.
  lemma {:induction false} QuietStep(cfg: Config, token: nat, now: int, timeUp: bool, db: Db, w: Worker, ch: Choice)
    requires w.pc.Finished? || ch.Fault? || !(w.pc.Load? || w.pc.Model? || (w.pc.Tool? && ch.ToolAnswer?))
    ensures var w' := Work(cfg, token, now, timeUp, db, w, ch).1; GoesOn(w.st, w'.st) && (Undecided(w) ==> Undecided(w'))
  {
    if w.pc.Finished? || ch.Fault? {
    } else if Checks(w.pc) {
      CheckGoesOn(cfg, db, token, now, timeUp, w);
    } else if Saves(w.pc) {
      SaveGoesOn(db, token, now, w);
    }
  }

  // ---- Over a path of the program ----------------------------------------------------------

  ghost function DeedsOfPath(cfg: Config, token: nat, hops: seq<Hop>): seq<Deed> {
    if hops == [] then []
    else
      var h := hops[|hops| - 1];
      DeedsOfPath(cfg, token, hops[..|hops| - 1]) + DeedsOf(cfg, token, h.now, h.before, h.from, h.choice)
  }

  // A path from a state past the load ends in what its deeds have added to the state it started with.
  lemma {:induction false} PathTells(cfg: Config, token: nat, first: Worker, hops: seq<Hop>, last: Worker,
      deeds: seq<Deed>)
    requires Path(cfg, token, first, hops, last) && !first.pc.Load? && Undecided(first) && Tells(cfg, first.st, deeds)
    ensures Tells(cfg, last.st, deeds + DeedsOfPath(cfg, token, hops)) && Undecided(last) && !last.pc.Load?
  {
    if hops == [] {
      assert deeds + [] == deeds;
    } else {
      var h := hops[|hops| - 1];
      var before := hops[..|hops| - 1];
      PathTells(cfg, token, first, before, h.from, deeds);
      StepTells(cfg, token, h.now, h.timeUp, h.before, h.from, h.choice, deeds + DeedsOfPath(cfg, token, before));
      NoLoadAgain(cfg, token, h.now, h.timeUp, h.before, h.from, h.choice);
      assert deeds + DeedsOfPath(cfg, token, hops)
          == (deeds + DeedsOfPath(cfg, token, before)) + DeedsOf(cfg, token, h.now, h.before, h.from, h.choice);
    }
  }

  lemma {:induction false} NoLoadAgain(cfg: Config, token: nat, now: int, timeUp: bool, db: Db, w: Worker, ch: Choice)
    requires !w.pc.Load?
    ensures !Work(cfg, token, now, timeUp, db, w, ch).1.pc.Load?
  {
    if w.pc.Finished? || ch.Fault? {
    } else if w.pc.Model? {
      ModelNeverLoads(cfg, timeUp, w, ch);
    } else if w.pc.Tool? && ch.ToolAnswer? {
      ToolNeverLoads(cfg, token, now, db, w, ch.outcome, ch.trace);
    }
  }

  lemma {:induction false} ToolNeverLoads(cfg: Config, token: nat, now: int, db: Db, w: Worker, o: Outcome,
      trace: TraceWrite)
    requires w.pc.Tool?
    ensures !ToolWork(cfg, token, now, db, w, w.pc.at, o, trace).1.pc.Load?
  {
    if w.st.pendingCall.Some? && w.st.pendingCall.value.name in cfg.tools {
      var call := w.st.pendingCall.value;
      var def := cfg.tools[call.name];
      var move := ToolStep(def, db, token, now, call, BoundArguments(call, w.st.observations), w.pc.at, o).1;
      assert !AfterMove(w, def, call, move, trace).pc.Load?;
    }
  }

  lemma {:induction false} ModelNeverLoads(cfg: Config, timeUp: bool, w: Worker, ch: Choice)
    requires w.pc.Model?
    ensures !ModelWork(cfg, timeUp, w, ch).pc.Load?
  {
  }

  lemma {:induction false} SpentOne(d: Deed)
    ensures Spent([d]) == Price(d) && Spent([]) == Bill(0, 0, 0, 0, 0, 0)
  {
    assert [d][..0] == [];
  }

  lemma {:induction false} MoveSpends(cfg: Config, w: Worker, call: ToolCall, move: ToolMove, trace: TraceWrite)
    requires w.pc.Tool? && call.name in cfg.tools
    ensures BillOf(AfterMove(w, cfg.tools[call.name], call, move, trace).st) == BillOf(w.st).Plus(Spent(DeedsOfMove(call, move)))
  {
    if move.Returned? {
      ReturnTells(cfg, w, call, move.result, move.replayed, trace);
      SpentOne(ExecutedCall(call, move.result, move.replayed));
    } else {
      OtherMoveGoesOn(w, cfg.tools[call.name], call, move, trace);
    }
  }

  lemma {:induction false} ToolSpends(cfg: Config, token: nat, now: int, db: Db, w: Worker, o: Outcome,
      trace: TraceWrite)
    requires w.pc.Tool?
    ensures BillOf(ToolWork(cfg, token, now, db, w, w.pc.at, o, trace).1.st)
            == BillOf(w.st).Plus(Spent(DeedsOf(cfg, token, now, db, w, ToolAnswer(o, trace))))
  {
    var done := DeedsOf(cfg, token, now, db, w, ToolAnswer(o, trace));
    var after := ToolWork(cfg, token, now, db, w, w.pc.at, o, trace).1;
    if w.st.pendingCall.Some? && w.st.pendingCall.value.name in cfg.tools {
      var call := w.st.pendingCall.value;
      var def := cfg.tools[call.name];
      var move := ToolStep(def, db, token, now, call, BoundArguments(call, w.st.observations), w.pc.at, o).1;
      assert done == DeedsOfMove(call, move) && after == AfterMove(w, def, call, move, trace);
      MoveSpends(cfg, w, call, move, trace);
    } else {
      assert done == [] && after == w;
    }
  }

  // The counters of any worker past its load move by what its deed costs.
  lemma {:induction false} StepSpends(cfg: Config, token: nat, now: int, timeUp: bool, db: Db, w: Worker, ch: Choice)
    requires !w.pc.Load?
    ensures BillOf(Work(cfg, token, now, timeUp, db, w, ch).1.st) == BillOf(w.st).Plus(Spent(DeedsOf(cfg, token, now, db, w, ch)))
  {
    if w.pc.Finished? || ch.Fault? || !(w.pc.Model? || (w.pc.Tool? && ch.ToolAnswer?)) {
      QuietStep(cfg, token, now, timeUp, db, w, ch);
    } else if w.pc.Tool? {
      ToolSpends(cfg, token, now, db, w, ch.outcome, ch.trace);
    } else if ch.ModelReply? && ParsedAction(ch.result.action) {
      ReplyTells(cfg, timeUp, w, ch.result, ch.trace);
      SpentOne(Replied(ch.result));
    } else if ch.ModelFailure? {
      FailureTells(w, ch.structured, ch.attempts, ch.trace);
      SpentOne(FailedToReply(ch.structured, ch.attempts));
    }
  }

  lemma {:induction false} SpentOnBoth(a: seq<Deed>, b: seq<Deed>)
    requires |b| <= 1
    ensures Spent(a + b) == Spent(a).Plus(Spent(b))
  {
    if b == [] {
      assert a + b == a;
    } else {
      SpentOnMore(a, b[0]);
      SpentOne(b[0]);
      assert b == [b[0]];
    }
  }

  lemma {:induction false} HopSpends(cfg: Config, token: nat, h: Hop) returns (done: seq<Deed>)
    requires GoodHop(cfg, token, h) && !h.from.pc.Load?
    ensures done == DeedsOf(cfg, token, h.now, h.before, h.from, h.choice) && |done| <= 1
    ensures BillOf(h.to.st) == BillOf(h.from.st).Plus(Spent(done)) && !h.to.pc.Load?
  {
    done := DeedsOf(cfg, token, h.now, h.before, h.from, h.choice);
    StepSpends(cfg, token, h.now, h.timeUp, h.before, h.from, h.choice);
    NoLoadAgain(cfg, token, h.now, h.timeUp, h.before, h.from, h.choice);
  }

  // Over every path: the end state's counters are the start's plus what the path's deeds cost.
  lemma {:induction false} PathSpends(cfg: Config, token: nat, first: Worker, hops: seq<Hop>, last: Worker)
    requires Path(cfg, token, first, hops, last) && !first.pc.Load?
    ensures BillOf(last.st) == BillOf(first.st).Plus(Spent(DeedsOfPath(cfg, token, hops))) && !last.pc.Load?
  {
    if hops != [] {
      var h := hops[|hops| - 1];
      PathSpends(cfg, token, first, hops[..|hops| - 1], h.from);
      var done := HopSpends(cfg, token, h);
      var earlier := DeedsOfPath(cfg, token, hops[..|hops| - 1]);
      assert DeedsOfPath(cfg, token, hops) == earlier + done;
      SpendsTogether(first, h.from, last, earlier, done);
    }
  }

  lemma {:induction false} SpendsTogether(first: Worker, mid: Worker, last: Worker, earlier: seq<Deed>, done: seq<Deed>)
    requires BillOf(mid.st) == BillOf(first.st).Plus(Spent(earlier)) && BillOf(last.st) == BillOf(mid.st).Plus(Spent(done)) && |done| <= 1
    ensures BillOf(last.st) == BillOf(first.st).Plus(Spent(earlier + done))
  {
    SpentOnBoth(earlier, done);
  }

  // ---- Over a run of the system ------------------------------------------------------------

  // The deeds behind the last saved state, and behind the state of every worker.
  datatype Chronicle = Chronicle(saved: seq<Deed>, own: map<nat, seq<Deed>>)

  // A new worker has done nothing; a load takes over what was saved, a save hands on what its worker has, and
  // every other step adds its deed.  A crash forgets the worker's deeds since its last save with its state.
  ghost function Recorded(cfg: Config, s: System, c: Chronicle, e: Event): Chronicle {
    match e
    case Step(token, now, timeUp, choice) =>
      if token !in s.workers || token !in c.own then c
      else
        var w := s.workers[token];
        var fenced := FencePasses(s.db.run, token, None, now);
        if w.pc.Load? then (if choice.Fault? || !fenced then c else c.(own := c.own[token := c.saved]))
        else if Saves(w.pc) then (if choice.Fault? || !fenced then c else c.(saved := c.own[token]))
        else c.(own := c.own[token := c.own[token] + DeedsOf(cfg, token, now, s.db, w, choice)])
    case AcquireLease(owner, now) =>
      if AcquireTxn(s.db.run, owner, now, cfg.leaseSeconds).Denied? then c
      else c.(own := c.own[s.db.run.token + 1 := []])
    case _ => c
  }

  ghost function ChronicleOf(cfg: Config, s: System, events: seq<Event>): Chronicle
    decreases |events|
  {
    if events == [] then Chronicle([], map[])
    else
      var before := events[..|events| - 1];
      Recorded(cfg, RunAll(cfg, s, before), ChronicleOf(cfg, s, before), events[|events| - 1])
  }

  ghost predicate SavedTold(cfg: Config, last: Option<RuntimeState>, deeds: seq<Deed>) {
    if last.None? then deeds == [] else Tells(cfg, last.value, deeds)
  }

  ghost predicate Told(cfg: Config, s: System, c: Chronicle) {
    && SavedTold(cfg, s.db.lastSaved, c.saved)
    && forall t | t in s.workers :: t in c.own && WorkerTold(cfg, s.workers[t], c.own[t])
  }

  lemma {:induction false} FreshTells(cfg: Config, token: nat, now: int)
    ensures Tells(cfg, FreshState(cfg, token, now), [])
  {
    assert FreshState(cfg, token, now).observations[1..] == [];
  }

  lemma {:induction false} LoadTells(cfg: Config, db: Db, token: nat, now: int, w: Worker, deeds: seq<Deed>)
    requires DbInv(cfg, db) && SavedTold(cfg, db.lastSaved, deeds) && FencePasses(db.run, token, None, now)
    ensures WorkerTold(cfg, LoadWork(cfg, token, now, db, w), deeds)
  {
    LoadIsLastSaved(db);
    if db.lastSaved.None? {
      FreshTells(cfg, token, now);
    } else {
      ResumeTells(cfg, db.lastSaved.value, token, w, deeds);
    }
  }

  lemma {:induction false} ResumeTells(cfg: Config, last: RuntimeState, token: nat, w: Worker, deeds: seq<Deed>)
    requires Sane(cfg, last) && Tells(cfg, last, deeds)
    ensures var st := Resume(cfg, last.(resumed := true), token); WorkerTold(cfg, w.(pc := Dispatch(st), st := st), deeds)
  {
  }

  lemma {:induction false} LoseTells(cfg: Config, w: Worker, deeds: seq<Deed>)
    requires WorkerTold(cfg, w, deeds)
    ensures WorkerTold(cfg, Lose(w), deeds)
  {
  }

  // One step of a worker, with what it does to the last saved state.
  lemma {:induction false} WorkTold(cfg: Config, s: System, c: Chronicle, token: nat, now: int, timeUp: bool,
      ch: Choice)
    requires DbInv(cfg, s.db) && SavedTold(cfg, s.db.lastSaved, c.saved)
    requires token in s.workers && token in c.own && WorkerTold(cfg, s.workers[token], c.own[token])
    ensures
      var (db', w') := Work(cfg, token, now, timeUp, s.db, s.workers[token], ch);
      var c' := Recorded(cfg, s, c, Step(token, now, timeUp, ch));
      SavedTold(cfg, db'.lastSaved, c'.saved) && token in c'.own && WorkerTold(cfg, w', c'.own[token])
  {
    var w := s.workers[token];
    if w.pc.Load? {
      if !ch.Fault? && FencePasses(s.db.run, token, None, now) { LoadTells(cfg, s.db, token, now, w, c.saved); }
    } else {
      StepTells(cfg, token, now, timeUp, s.db, w, ch, c.own[token]);
      WorkFrame(cfg, token, now, timeUp, s.db, w, ch);
      if Saves(w.pc) { assert c.own[token] + [] == c.own[token]; }
    }
  }

  // One worker and the last saved state go on, the other workers stay.
  lemma {:induction false} ToldWithOne(cfg: Config, s: System, c: Chronicle, db: Db, saved: seq<Deed>, token: nat,
      w: Worker, deeds: seq<Deed>)
    requires SavedTold(cfg, db.lastSaved, saved) && WorkerTold(cfg, w, deeds)
    ensures Told(cfg, s, c) ==> Told(cfg, System(db, s.workers[token := w]), Chronicle(saved, c.own[token := deeds]))
  {
  }

  lemma {:induction false} StepTold(cfg: Config, s: System, c: Chronicle, token: nat, now: int, timeUp: bool,
      ch: Choice)
    requires token in s.workers
    ensures DbInv(cfg, s.db) && Told(cfg, s, c) ==>
              Told(cfg, Advance(cfg, s, Step(token, now, timeUp, ch)), Recorded(cfg, s, c, Step(token, now, timeUp, ch)))
  {
    if DbInv(cfg, s.db) && Told(cfg, s, c) {
      WorkTold(cfg, s, c, token, now, timeUp, ch);
      var (db', w') := Work(cfg, token, now, timeUp, s.db, s.workers[token], ch);
      var c' := Recorded(cfg, s, c, Step(token, now, timeUp, ch));
      ToldWithOne(cfg, s, c, db', c'.saved, token, w', c'.own[token]);
      assert c'.own == c.own[token := c'.own[token]];
      assert c' == Chronicle(c'.saved, c.own[token := c'.own[token]]);
    }
  }

  lemma {:induction false} AcquireTold(cfg: Config, s: System, c: Chronicle, owner: string, now: int)
    ensures Told(cfg, s, c) ==>
              Told(cfg, Advance(cfg, s, AcquireLease(owner, now)), Recorded(cfg, s, c, AcquireLease(owner, now)))
  {
    var answer := AcquireTxn(s.db.run, owner, now, cfg.leaseSeconds);
    if answer.Granted? && Told(cfg, s, c) {
      var token := answer.value.token;
      var born := FreshState(cfg, token, now);
      FreshTells(cfg, token, now);
      ToldWithOne(cfg, s, c, s.db.(run := answer.value), c.saved, token, Worker(owner, Load, born), []);
    }
  }

  // Everything else leaves the states alone.
  lemma {:induction false} OtherTold(cfg: Config, s: System, c: Chronicle, e: Event)
    requires !e.Step? && !e.AcquireLease?
    ensures Told(cfg, s, c) ==> Told(cfg, Advance(cfg, s, e), Recorded(cfg, s, c, e))
  {
  }

  lemma {:induction false} EventTold(cfg: Config, s: System, c: Chronicle, e: Event)
    ensures DbInv(cfg, s.db) && Told(cfg, s, c) ==> Told(cfg, Advance(cfg, s, e), Recorded(cfg, s, c, e))
  {
    if e.AcquireLease? {
      AcquireTold(cfg, s, c, e.owner, e.now);
    } else if !e.Step? {
      OtherTold(cfg, s, c, e);
    } else if e.token in s.workers {
      StepTold(cfg, s, c, e.token, e.now, e.timeUp, e.choice);
    }
  }

  lemma {:induction false} RunTold(cfg: Config, s: System, events: seq<Event>)
    requires Registered(cfg) && Initial(s)
    ensures Told(cfg, RunAll(cfg, s, events), ChronicleOf(cfg, s, events))
    decreases |events|
  {
    if events != [] {
      var before := events[..|events| - 1];
      RunTold(cfg, s, before);
      ReachableInv(cfg, s, before);
      EventTold(cfg, RunAll(cfg, s, before), ChronicleOf(cfg, s, before), events[|events| - 1]);
    }
  }

  // The last saved state is what the deeds that led to it have made of it, across crashes and resumes: its
  // counters are the sums over the replies, failures and calls, its observations are the first one and one
  // for every call, and its decision is the last deed's.
  lemma {:induction false} SavedStateIsWhatWasDone(cfg: Config, s: System, events: seq<Event>)
    requires Registered(cfg) && Initial(s)
    ensures
      var last, deeds := RunAll(cfg, s, events).db.lastSaved, ChronicleOf(cfg, s, events).saved;
      if last.None? then deeds == [] else Tells(cfg, last.value, deeds)
  {
    RunTold(cfg, s, events);
  }

  // Whatever crashed in between: what a completed run has spent is within every limit, and the decision it
  // returns is the one its last deed made.
  lemma {:induction false} SpendingIsWithinBudget(cfg: Config, s: System, events: seq<Event>, token: nat)
    requires Registered(cfg) && Initial(s)
    requires
      var end := RunAll(cfg, s, events);
      token in end.workers && ReportsCompletion(end.workers[token])
    ensures
      var deeds := ChronicleOf(cfg, s, events).saved;
      var spent, b := Spent(deeds), cfg.budget;
      && spent.steps <= b.maxSteps && spent.toolCalls <= b.maxToolCalls && spent.toolCalls <= spent.steps
      && spent.modelCalls <= b.maxModelCalls && spent.repairs <= b.maxRepairCalls
      && spent.inputTokens <= b.maxInputTokens && spent.outputTokens <= b.maxOutputTokens
      && spent.inputTokens + spent.outputTokens <= b.maxTotalTokens
      && deeds != [] && Makes(cfg, deeds[|deeds| - 1], RunAll(cfg, s, events).workers[token].pc.ending.action)
  {
    var end := RunAll(cfg, s, events);
    RunTold(cfg, s, events);
    ReachableInv(cfg, s, events);
    assert ReportOK(end.db, end.workers[token]);
    assert Sane(cfg, end.db.lastSaved.value);
  }
}
