// What one execution of a tool call has done when it ends (app/harness/tools.py, ToolExecutor.execute): how often
// the handler was called, why it was called again, and what the ledger row says.
module ToolEndings {
  import opened Wrappers
  import opened Contracts
  import opened LeaseSpec
  import opened StoreSpec
  import opened Keys
  import opened ToolSpec
  import opened RunnerSpec
  import opened Protocol
  import opened ProtocolTheorems
  import opened Harness

  // The errors that may pass: a timeout, a rate limit, a server's or the network's fault.
  predicate MayPass(exc: Exc) {
    match exc
    case IsToolError(e) => e == ToolTimeout || e == ToolRateLimited || e == ToolUpstream || e == ToolTransient
    case TimedOut => true
    case HttpStatus(n) => n == 429 || n >= 500
    case NetworkOrDatabase => true
    case NotPermitted => false
    case ApplicationError => false
    case OtherException => false
  }

  lemma {:induction false} TransientIffMayPass(exc: Exc)
    ensures MapError(exc).Transient() <==> MayPass(exc)
  {
  }

  // The hop calls the handler.
  predicate CallsHandler(def: ToolDef, h: ToolHop) { h.at.Handler? && h.at.attempt <= def.maxAttempts }

  // The hop meets an error that may pass, in the handler or where its result is recorded, and it is this error
  // that counts: a write that is refused at its fence or for want of evidence fails with that instead.
  predicate MeetsPassingError(def: ToolDef, h: ToolHop) {
    && (CallsHandler(def, h) || h.at.Succeed?)
    && h.outcome.threw.Some? && MayPass(h.outcome.threw.value)
    && (h.move.Next? ==> !h.move.pc.MarkFail?) && !h.move.Returned?
  }

  function HandlerCalls(def: ToolDef, hops: seq<ToolHop>): nat {
    if hops == [] then 0
    else HandlerCalls(def, hops[..|hops| - 1]) + if CallsHandler(def, hops[|hops| - 1]) then 1 else 0
  }

  function PassingErrors(def: ToolDef, hops: seq<ToolHop>): nat {
    if hops == [] then 0
    else PassingErrors(def, hops[..|hops| - 1]) + if MeetsPassingError(def, hops[|hops| - 1]) then 1 else 0
  }

  // Calls and passing errors so far, at each position.
  predicate CountsAt(def: ToolDef, at: ToolPc, calls: nat, errors: nat) {
    match at
    case Handler(n) => n >= 1 && calls == n - 1 && errors == n - 1 && (n == 1 || n <= def.maxAttempts)
    case Succeed(n, _) => n >= 1 && calls == n && errors == n - 1 && n <= def.maxAttempts
    case MarkUnknown(n, e) => n >= 1 && calls == n && errors == n && n <= def.maxAttempts && e.Transient()
    case Reconcile(n, e) => n >= 1 && calls == n && errors == n && n <= def.maxAttempts && e.Transient()
    case LateSucceed(_) => calls == errors && calls <= def.maxAttempts
    case MarkStarted(n) => n >= 1 && calls == n - 1 && errors == n - 1 && calls < def.maxAttempts
    case MarkFail(e) => calls == errors + 1 && calls <= def.maxAttempts && !e.Transient()
    case _ => calls == 0 && errors == 0
  }

  predicate CountsAfter(def: ToolDef, move: ToolMove, calls: nat, errors: nat, giveUp: bool) {
    match move
    case Next(pc) => CountsAt(def, pc, calls, errors)
    case Raised(e) =>
      && calls <= def.maxAttempts
      && (if calls == 0 then errors == 0
          else if e.Transient() then calls == errors && (calls == def.maxAttempts || giveUp)
          else calls == errors + 1)
    case _ => calls <= def.maxAttempts && errors <= calls <= errors + 1
  }

  lemma {:induction false} HopCounts(def: ToolDef, token: nat, call: ToolCall, digest: Obj, h: ToolHop, calls: nat,
      errors: nat)
    requires GoodToolHop(def, token, call, digest, h) && CountsAt(def, h.at, calls, errors)
    ensures CountsAfter(def, h.move, calls + (if CallsHandler(def, h) then 1 else 0),
                        errors + (if MeetsPassingError(def, h) then 1 else 0), h.outcome.giveUp)
  {
    if h.outcome.threw.Some? { TransientIffMayPass(h.outcome.threw.value); }
  }

  lemma {:induction false} PathCounts(def: ToolDef, token: nat, call: ToolCall, digest: Obj, hops: seq<ToolHop>,
      last: ToolMove)
    requires ToolPath(def, token, call, digest, FirstPc(def), hops, last)
    ensures CountsAfter(def, last, HandlerCalls(def, hops), PassingErrors(def, hops),
                        hops != [] && hops[|hops| - 1].outcome.giveUp)
  {
    if hops != [] {
      var h := hops[|hops| - 1];
      PathCounts(def, token, call, digest, hops[..|hops| - 1], Next(h.at));
      HopCounts(def, token, call, digest, h, HandlerCalls(def, hops[..|hops| - 1]), PassingErrors(def, hops[..|hops| - 1]));
    }
  }

  // The handler is called at most as often as the tool allows, every time but the first after an error that may
  // pass, and such an error is the last word only when the attempts or the time for retries are used up.
  lemma {:induction false} CalledAgainAfterPassingErrorsOnly(def: ToolDef, token: nat, call: ToolCall, digest: Obj,
      hops: seq<ToolHop>, last: ToolMove)
    requires ToolPath(def, token, call, digest, FirstPc(def), hops, last)
    ensures HandlerCalls(def, hops) <= def.maxAttempts && HandlerCalls(def, hops) <= PassingErrors(def, hops) + 1
    ensures last.Raised? && HandlerCalls(def, hops) > 0 && HandlerCalls(def, hops) == PassingErrors(def, hops) ==>
              HandlerCalls(def, hops) == def.maxAttempts || hops[|hops| - 1].outcome.giveUp
  {
    PathCounts(def, token, call, digest, hops, last);
  }

  predicate RowSays(db: Db, lk: LedgerKey, status: LedgerStatus, result: Option<Obj>, error: Option<ErrorCode>) {
    lk in db.ledger && db.ledger[lk].status == status && db.ledger[lk].result == result && db.ledger[lk].error == error
  }

  // The row a step leaves behind when it returns or raises, by where it stands.
  predicate LeavesItsMark(def: ToolDef, lk: LedgerKey, digest: Obj, h: ToolHop) {
    match h.move
    case Returned(result, _) =>
      lk in h.after.ledger && h.after.ledger[lk].status == SUCCEEDED && h.after.ledger[lk].result == Some(result)
    case Next(pc) => pc.Reconcile? ==> RowSays(h.after, lk, UNKNOWN, None, Some(pc.error.Code()))
    case Raised(e) =>
      (match h.at
       case Begin => e == ToolValidation && lk in h.before.ledger && h.before.ledger[lk].digest != digest
       case PreReconcile => e == ToolOutcomeUnknown && !def.reconcilable
       case Handler(n) => e == ToolBusiness && n > def.maxAttempts
       case Reconcile(n, cause) =>
         e == cause && (def.reconcilable && lk.key in h.before.proposals ==> h.before.proposals[lk.key].tool != lk.tool)
       case MarkFail(cause) => e == cause && RowSays(h.after, lk, LEDGER_FAILED, None, Some(e.Code()))
       case _ => false)
    case Lost => true
  }

  lemma {:induction false} HopLeavesItsMark(def: ToolDef, token: nat, call: ToolCall, digest: Obj, h: ToolHop)
    requires def.sideEffect && call.key.Some? && GoodToolHop(def, token, call, digest, h)
    ensures LeavesItsMark(def, LedgerKey(call.name, call.key.value), digest, h)
  {
    var key := call.key.value;
    var lk := LedgerKey(call.name, key);
    match h.at {
      case Begin => assert BeginStep(h.before, token, h.now, lk, digest) == (h.after, h.move);
      case Handler(n) => assert HandlerStep(def, h.before, token, h.now, call, digest, n, h.outcome) == (h.after, h.move);
      case _ =>
    }
  }

  // A write that returns has its result in the ledger, as SUCCEEDED, from that moment on.
  lemma {:induction false} ReturnedIsOnRecord(def: ToolDef, token: nat, call: ToolCall, digest: Obj,
      hops: seq<ToolHop>, last: ToolMove)
    requires def.sideEffect && call.key.Some? && ToolPath(def, token, call, digest, Begin, hops, last) && last.Returned?
    ensures hops != []
    ensures var row := LedgerKey(call.name, call.key.value);
            var db := hops[|hops| - 1].after;
            row in db.ledger && db.ledger[row].status == SUCCEEDED && db.ledger[row].result == Some(last.result)
  {
    HopLeavesItsMark(def, token, call, digest, hops[|hops| - 1]);
  }

  // A write that raises says why in the ledger.  If the handler was called: UNKNOWN with the error's code for an
  // error that may pass, and the reconciler found nothing; FAILED with the code for any other.  If it was not:
  // the row is another call's, or its outcome cannot be found out, or no attempt is allowed.
  lemma {:induction false} RaisedIsOnRecord(def: ToolDef, token: nat, call: ToolCall, digest: Obj, hops: seq<ToolHop>,
      last: ToolMove)
    requires def.sideEffect && call.key.Some? && ToolPath(def, token, call, digest, Begin, hops, last) && last.Raised?
    ensures hops != []
    ensures
      var key, lk, e := call.key.value, LedgerKey(call.name, call.key.value), last.error;
      var end := hops[|hops| - 1];
      if HandlerCalls(def, hops) == 0 then
        || (e == ToolValidation && lk in end.before.ledger && end.before.ledger[lk].digest != digest)
        || (e == ToolOutcomeUnknown && !def.reconcilable)
        || (e == ToolBusiness && def.maxAttempts == 0)
      else if e.Transient() then
        && |hops| > 1 && RowSays(hops[|hops| - 2].after, lk, UNKNOWN, None, Some(e.Code()))
        && (def.reconcilable && key in end.before.proposals ==> end.before.proposals[key].tool != call.name)
      else RowSays(end.after, lk, LEDGER_FAILED, None, Some(e.Code()))
  {
    var end, before := hops[|hops| - 1], hops[..|hops| - 1];
    PathCounts(def, token, call, digest, before, Next(end.at));
    HopLeavesItsMark(def, token, call, digest, end);
    if end.at.Reconcile? {
      assert before != [] && before[|before| - 1] == hops[|hops| - 2];
      HopLeavesItsMark(def, token, call, digest, before[|before| - 1]);
    }
  }

  // How an execution opens, by the row of its key: none, another call's, a finished one's, or an unfinished one's.
  lemma {:induction false} OpensByTheRow(def: ToolDef, token: nat, call: ToolCall, digest: Obj, h: ToolHop)
    requires def.sideEffect && call.key.Some? && GoodToolHop(def, token, call, digest, h) && h.at == Begin
    requires FencePasses(h.before.run, token, None, h.now)
    ensures
      var lk := LedgerKey(call.name, call.key.value);
      if lk !in h.before.ledger then
        && h.move == Next(Handler(1)) && RowSays(h.after, lk, STARTED, None, None) && h.after.ledger[lk].digest == digest
        && h.after == h.before.(ledger := h.before.ledger[lk := h.after.ledger[lk]])
      else
        && h.after == h.before
        && (h.before.ledger[lk].digest != digest <==> h.move == Raised(ToolValidation))
        && (h.move.Returned? <==>
              var row := h.before.ledger[lk]; row.digest == digest && row.status == SUCCEEDED && row.result.Some?)
        && (h.move.Next? ==> h.move.pc == PreReconcile)
  {
    var lk := LedgerKey(call.name, call.key.value);
    assert BeginStep(h.before, token, h.now, lk, digest) == (h.after, h.move);
  }

  // ---- What a proposal rests on ------------------------------------------------------------

  // The observation names the reference: as its task, or among the attempts of its result.
  predicate Names(o: Obj, ref: string) {
    || (ref != "" && "task_id" in o && o["task_id"] == JStr(ref))
    || ("result" in o && o["result"].JObj? && "attempt_ids" in o["result"].fields
        && o["result"].fields["attempt_ids"].JArr?
        && exists i :: 0 <= i < |o["result"].fields["attempt_ids"].items| && Text(o["result"].fields["attempt_ids"].items[i]) == ref)
  }

  lemma {:induction false} ObservedAreNamed(o: Obj, ref: string)
    ensures ref in ObservedRefs(o) <==> Names(o, ref)
  {
    if "result" in o && o["result"].JObj? && "attempt_ids" in o["result"].fields {
      var j := o["result"].fields["attempt_ids"];
      assert ref in Texts(j) <==> j.JArr? && exists i :: 0 <= i < |j.items| && Text(j.items[i]) == ref by {
        if j.JArr? && exists i :: 0 <= i < |j.items| && Text(j.items[i]) == ref {
          var i :| 0 <= i < |j.items| && Text(j.items[i]) == ref;
          assert Texts(j)[i] == ref;
        }
      }
    }
  }

  predicate AnyNames(observations: seq<Obj>,
      ref: string) { exists i :: 0 <= i < |observations| && Names(observations[i], ref) }

  lemma {:induction false} AnyOfMore(before: seq<Obj>, last: Obj, ref: string)
    ensures AnyNames(before + [last], ref) <==> AnyNames(before, ref) || Names(last, ref)
  {
    var all := before + [last];
    assert forall i :: 0 <= i < |before| ==> all[i] == before[i];
    assert all[|before|] == last;
  }

  lemma {:induction false} AllAreNamed(observations: seq<Obj>, ref: string)
    ensures ref in AllRefs(observations) <==> AnyNames(observations, ref)
  {
    if observations != [] {
      var before, last := observations[..|observations| - 1], observations[|observations| - 1];
      AllAreNamed(before, ref);
      ObservedAreNamed(last, ref);
      AnyOfMore(before, last, ref);
      assert observations == before + [last];
    }
  }

  // The evidence that the harness binds to a call: each reference that an observation names, once.
  lemma {:induction false} EvidenceIsWhatWasSeen(call: ToolCall, observations: seq<Obj>, ref: string)
    ensures var bound := BoundArguments(call, observations)["evidence_refs"];
            && bound.JArr? && (JStr(ref) in bound.items <==> AnyNames(observations, ref))
            && (forall i, j | 0 <= i < j < |bound.items| :: bound.items[i] != bound.items[j])
  {
    AllAreNamed(observations, ref);
    var refs, items := EvidenceRefs(observations), BoundArguments(call, observations)["evidence_refs"].items;
    if ref in refs {
      var i :| 0 <= i < |refs| && refs[i] == ref;
      assert items[i] == JStr(ref);
    }
  }

  function Number(j: Json): Option<real> {
    match j
    case JInt(i) => Some(i as real)
    case JReal(x) => Some(x)
    case _ => None
  }

  // The proposal is the call's, awaits what proposals of its tool await, and was made with valid arguments and on
  // evidence that the run has seen.
  ghost predicate Grounded(cfg: Config, call: ToolCall, observations: seq<Obj>, p: Proposal) {
    var args := call.arguments;
    && p.tool == call.name && call.name in cfg.tools && cfg.tools[call.name].permitted
    && p.status == (if call.name == "propose_minor_adjustment" then "PENDING" else "AWAITING_CONFIRMATION")
    && "confidence" in args && Number(args["confidence"]).Some? && 0.0 <= Number(args["confidence"]).value <= 1.0
    && ("adjustment_factor" in args ==>
          Number(args["adjustment_factor"]).Some? && 0.75 <= Number(args["adjustment_factor"]).value <= 1.25)
    && "reason_codes" in args && args["reason_codes"].JArr? && 1 <= |args["reason_codes"].items| <= 16
    && (exists ref :: AnyNames(observations, ref))
  }

  lemma {:induction false} BoundEvidenceWasSeen(call: ToolCall, observations: seq<Obj>)
    requires HasEvidence(BoundArguments(call, observations))
    ensures exists ref :: AnyNames(observations, ref)
  {
    var refs := EvidenceRefs(observations);
    assert BoundArguments(call, observations)["evidence_refs"].items != [];
    AllAreNamed(observations, refs[0]);
    assert refs[0] in AllRefs(observations);
  }

  // A handler that adds a proposal.
  lemma {:induction false} HandlerGrounds(cfg: Config, token: nat, now: int, db: Db, call: ToolCall,
      observations: seq<Obj>,
      attempt: nat, o: Outcome, key: string)
    requires call.name in cfg.tools && cfg.tools[call.name].sideEffect && Precheck(cfg.tools[call.name], call).None?
    requires key !in db.proposals
    requires key in HandlerStep(cfg.tools[call.name], db, token, now, call, BoundArguments(call, observations), attempt, o).0.proposals
    ensures Grounded(cfg, call, observations,
                     HandlerStep(cfg.tools[call.name], db, token, now, call, BoundArguments(call, observations), attempt, o).0.proposals[key])
  {
    BoundEvidenceWasSeen(call, observations);
  }

  lemma {:induction false} HolderGrounds(cfg: Config, token: nat, now: int, timeUp: bool, db: Db, w: Worker,
      ch: Choice, key: string)
    requires Registered(cfg) && HolderInv(cfg, db, token, w)
    requires key !in db.proposals && key in Work(cfg, token, now, timeUp, db, w, ch).0.proposals
    ensures w.st.pendingCall.Some?
    ensures Grounded(cfg, w.st.pendingCall.value, w.st.observations, Work(cfg, token, now, timeUp, db, w, ch).0.proposals[key])
  {
    var after := Work(cfg, token, now, timeUp, db, w, ch).0;
    assert after.proposals != db.proposals;
    OnlyHandlersPropose(cfg, token, now, timeUp, db, w, ch);
    var call := w.st.pendingCall.value;
    var digest := BoundArguments(call, w.st.observations);
    assert after == HandlerStep(cfg.tools[call.name], db, token, now, call, digest, w.pc.at.attempt, ch.outcome).0;
    HandlerGrounds(cfg, token, now, db, call, w.st.observations, w.pc.at.attempt, ch.outcome, key);
  }

  // Whatever the workers do, a proposal that appears is grounded in the call its worker has pending.
  lemma {:induction false} ProposalsAreGrounded(cfg: Config, s: System, e: Event, key: string)
    requires Registered(cfg) && Reachable(cfg, s)
    requires key !in s.db.proposals && key in Advance(cfg, s, e).db.proposals
    ensures e.Step? && e.token in s.workers && s.workers[e.token].st.pendingCall.Some?
    ensures var st := s.workers[e.token].st;
            Grounded(cfg, st.pendingCall.value, st.observations, Advance(cfg, s, e).db.proposals[key])
  {
    assert Advance(cfg, s, e).db.proposals.Keys != s.db.proposals.Keys;
    OnlyTheHolderWrites(cfg, s, e);
    ReachableHasInv(cfg, s);
    HolderGrounds(cfg, e.token, e.now, e.timeUp, s.db, s.workers[e.token], e.choice, key);
  }

  // ---- Undisturbed executions --------------------------------------------------------------

  // The execution goes on from a position while nobody else touches the database, meeting these outcomes in turn.
  function GoOn(def: ToolDef, db: Db, token: nat, now: int, call: ToolCall, digest: Obj, at: ToolPc,
      met: seq<Outcome>): (Db, ToolMove)
    decreases |met|
  {
    if met == [] then (db, Next(at))
    else
      var (db', move) := ToolStep(def, db, token, now, call, digest, at, met[0]);
      if move.Next? && |met| > 1 then GoOn(def, db', token, now, call, digest, move.pc, met[1..]) else (db', move)
  }

  lemma {:induction false} GoOnOnce(def: ToolDef, db: Db, token: nat, now: int, call: ToolCall, digest: Obj,
      at: ToolPc, met: seq<Outcome>,
      db': Db, next: ToolPc)
    requires |met| > 1 && ToolStep(def, db, token, now, call, digest, at, met[0]) == (db', Next(next))
    ensures GoOn(def, db, token, now, call, digest, at, met) == GoOn(def, db', token, now, call, digest, next, met[1..])
  {
  }

  lemma {:induction false} GoOnLast(def: ToolDef, db: Db, token: nat, now: int, call: ToolCall, digest: Obj,
      at: ToolPc, o: Outcome)
    ensures GoOn(def, db, token, now, call, digest, at, [o]) == ToolStep(def, db, token, now, call, digest, at, o)
  {
  }

  // A write tool whose fence holds, called with a key and arguments that name evidence.
  predicate WellCalled(def: ToolDef, db: Db, token: nat, now: int, call: ToolCall, digest: Obj) {
    && def.sideEffect && call.key.Some? && def.maxAttempts > 0
    && FencePasses(db.run, token, None, now) && HasEvidence(digest)
  }

  predicate Untroubled(o: Outcome) { o.threw.None? }

  // The first execution of a key, if nothing goes wrong: one new proposal, whose id and status are returned, and
  // a finished row that says so.
  lemma {:induction false} CleanWriteReturns(def: ToolDef, db: Db, token: nat, now: int, call: ToolCall, digest: Obj,
      a: Outcome, b: Outcome, c: Outcome)
    requires WellCalled(def, db, token, now, call, digest) && Untroubled(b) && Untroubled(c)
    requires LedgerKey(call.name, call.key.value) !in db.ledger && call.key.value !in db.proposals
    ensures
      var (after, move) := GoOn(def, db, token, now, call, digest, Begin, [a, b, c]);
      var key, lk := call.key.value, LedgerKey(call.name, call.key.value);
      && after.proposals.Keys == db.proposals.Keys + {key} && after.proposals[key].id == b.freshId
      && move == Returned(map["proposal_id" := JStr(b.freshId), "status" := JStr(after.proposals[key].status)], false)
      && after.ledger.Keys == db.ledger.Keys + {lk} && after.ledger[lk] == Record(digest, SUCCEEDED, Some(move.result), None, token)
  {
    var key, lk := call.key.value, LedgerKey(call.name, call.key.value);
    var begun := db.(ledger := db.ledger[lk := Record(digest, STARTED, None, None, token)]);
    assert BeginStep(db, token, now, lk, digest) == (begun, Next(Handler(1)));
    var done := ProposeTxn(begun, call.name, key, b.freshId);
    var result := ProposalResult(done.proposals[key]);
    assert HandlerStep(def, begun, token, now, call, digest, 1, b) == (done, Next(Succeed(1, result)));
    GoOnOnce(def, db, token, now, call, digest, Begin, [a, b, c], begun, Handler(1));
    assert [a, b, c][1..] == [b, c] && [b, c][1..] == [c];
    GoOnOnce(def, begun, token, now, call, digest, Handler(1), [b, c], done, Succeed(1, result));
    GoOnLast(def, done, token, now, call, digest, Succeed(1, result), c);
  }

  // A row that an earlier worker left unfinished after its proposal had been committed: the next one finds the
  // proposal, finishes the row with it and returns it as replayed, without calling the handler.
  lemma {:induction false} CommittedWriteIsFound(def: ToolDef, db: Db, token: nat, now: int, call: ToolCall,
      digest: Obj, a: Outcome, b: Outcome, c: Outcome)
    requires WellCalled(def, db, token, now, call, digest) && def.reconcilable
    requires var lk := LedgerKey(call.name, call.key.value);
             lk in db.ledger && db.ledger[lk].digest == digest && db.ledger[lk].status != SUCCEEDED
    requires call.key.value in db.proposals && db.proposals[call.key.value].tool == call.name
    ensures
      var (after, move) := GoOn(def, db, token, now, call, digest, Begin, [a, b, c]);
      var lk, p := LedgerKey(call.name, call.key.value), db.proposals[call.key.value];
      && after.proposals == db.proposals && move == Returned(ProposalResult(p), true)
      && after.ledger == db.ledger[lk := Record(digest, SUCCEEDED, Some(ProposalResult(p)), None, token)]
  {
    var lk, found := LedgerKey(call.name, call.key.value), ProposalResult(db.proposals[call.key.value]);
    assert BeginStep(db, token, now, lk, digest) == (db, Next(PreReconcile));
    GoOnOnce(def, db, token, now, call, digest, Begin, [a, b, c], db, PreReconcile);
    assert [a, b, c][1..] == [b, c] && [b, c][1..] == [c];
    GoOnOnce(def, db, token, now, call, digest, PreReconcile, [b, c], db, PreSucceed(found));
    GoOnLast(def, db, token, now, call, digest, PreSucceed(found), c);
  }

  // One that was left before a proposal of the tool was committed: the row is started over and the handler called.
  lemma {:induction false} UncommittedWriteIsStartedOver(def: ToolDef, db: Db, token: nat, now: int, call: ToolCall,
      digest: Obj, a: Outcome, b: Outcome, c: Outcome)
    requires WellCalled(def, db, token, now, call, digest) && def.reconcilable
    requires var lk := LedgerKey(call.name, call.key.value);
             lk in db.ledger && db.ledger[lk].digest == digest && db.ledger[lk].status != SUCCEEDED
    requires call.key.value in db.proposals ==> db.proposals[call.key.value].tool != call.name
    ensures
      var lk := LedgerKey(call.name, call.key.value);
      GoOn(def, db, token, now, call, digest, Begin, [a, b, c])
      == (db.(ledger := db.ledger[lk := Record(digest, STARTED, None, None, token)]), Next(Handler(1)))
  {
    var lk := LedgerKey(call.name, call.key.value);
    assert BeginStep(db, token, now, lk, digest) == (db, Next(PreReconcile));
    GoOnOnce(def, db, token, now, call, digest, Begin, [a, b, c], db, PreReconcile);
    assert [a, b, c][1..] == [b, c] && [b, c][1..] == [c];
    GoOnOnce(def, db, token, now, call, digest, PreReconcile, [b, c], db, Restart);
    GoOnLast(def, db, token, now, call, digest, Restart, c);
  }

  // The handler commits, but its answer is lost to an error that may pass: the reconciler finds the proposal at
  // once, and the execution returns it all the same.
  lemma {:induction false} LostAnswerIsRecovered(def: ToolDef, db: Db, token: nat, now: int, call: ToolCall,
      digest: Obj, n: nat,
      a: Outcome, b: Outcome, c: Outcome, d: Outcome)
    requires WellCalled(def, db, token, now, call, digest) && def.reconcilable && n <= def.maxAttempts
    requires a.threw.Some? && MayPass(a.threw.value) && a.effect
    requires LedgerKey(call.name, call.key.value) in db.ledger && call.key.value !in db.proposals
    ensures
      var (after, move) := GoOn(def, db, token, now, call, digest, Handler(n), [a, b, c, d]);
      var key, lk := call.key.value, LedgerKey(call.name, call.key.value);
      && after.proposals.Keys == db.proposals.Keys + {key} && after.proposals[key].id == a.freshId
      && move == Returned(ProposalResult(after.proposals[key]), true)
      && RowSays(after, lk, SUCCEEDED, Some(move.result), None)
  {
    var key, lk, e := call.key.value, LedgerKey(call.name, call.key.value), MapError(a.threw.value);
    TransientIffMayPass(a.threw.value);
    var done := ProposeTxn(db, call.name, key, a.freshId);
    var found := ProposalResult(done.proposals[key]);
    assert HandlerStep(def, db, token, now, call, digest, n, a) == (done, Next(MarkUnknown(n, e)));
    var noted := UpdateTxn(done, token, now, lk, UNKNOWN, None, Some(e.Code())).value;
    GoOnOnce(def, db, token, now, call, digest, Handler(n), [a, b, c, d], done, MarkUnknown(n, e));
    assert [a, b, c, d][1..] == [b, c, d] && [b, c, d][1..] == [c, d] && [c, d][1..] == [d];
    GoOnOnce(def, done, token, now, call, digest, MarkUnknown(n, e), [b, c, d], noted, ToolPc.Reconcile(n, e));
    GoOnOnce(def, noted, token, now, call, digest, ToolPc.Reconcile(n, e), [c, d], noted, LateSucceed(found));
    GoOnLast(def, noted, token, now, call, digest, LateSucceed(found), d);
  }

  // An error that may pass, with no effect and attempts and time left: the handler is called again.
  lemma {:induction false} FailedCallIsRetried(def: ToolDef, db: Db, token: nat, now: int, call: ToolCall, digest: Obj,
      n: nat,
      a: Outcome, b: Outcome, c: Outcome, d: Outcome)
    requires WellCalled(def, db, token, now, call, digest) && n < def.maxAttempts
    requires a.threw.Some? && MayPass(a.threw.value) && !a.effect && !c.giveUp
    requires LedgerKey(call.name, call.key.value) in db.ledger && call.key.value !in db.proposals
    ensures
      var (after, move) := GoOn(def, db, token, now, call, digest, Handler(n), [a, b, c, d]);
      && move == Next(Handler(n + 1)) && after.proposals == db.proposals
      && RowSays(after, LedgerKey(call.name, call.key.value), STARTED, None, None)
  {
    var lk, e := LedgerKey(call.name, call.key.value), MapError(a.threw.value);
    TransientIffMayPass(a.threw.value);
    assert HandlerStep(def, db, token, now, call, digest, n, a) == (db, Next(MarkUnknown(n, e)));
    var noted := UpdateTxn(db, token, now, lk, UNKNOWN, None, Some(e.Code())).value;
    GoOnOnce(def, db, token, now, call, digest, Handler(n), [a, b, c, d], db, MarkUnknown(n, e));
    assert [a, b, c, d][1..] == [b, c, d] && [b, c, d][1..] == [c, d] && [c, d][1..] == [d];
    GoOnOnce(def, db, token, now, call, digest, MarkUnknown(n, e), [b, c, d], noted, ToolPc.Reconcile(n, e));
    GoOnOnce(def, noted, token, now, call, digest, ToolPc.Reconcile(n, e), [c, d], noted, MarkStarted(n + 1));
    GoOnLast(def, noted, token, now, call, digest, MarkStarted(n + 1), d);
  }
}
