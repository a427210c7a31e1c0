// app/harness/tools.py: one execution of a tool call, split at its database transactions.
module ToolSpec {
  import opened Wrappers
  import opened Contracts
  import opened LeaseSpec
  import opened StoreSpec
  import opened Keys

  datatype ToolError =
    | ToolTimeout | ToolRateLimited | ToolUpstream | ToolTransient | ToolBusiness
    | ToolValidation | UnknownTool | ToolPermission | ToolOutcomeUnknown
  {
    predicate Transient() { ToolTimeout? || ToolRateLimited? || ToolUpstream? || ToolTransient? }

    function Code(): ErrorCode {
      match this
      case ToolTimeout => CodeToolTimeout
      case ToolRateLimited => CodeToolRateLimited
      case ToolUpstream => CodeToolUpstream
      case ToolTransient => CodeOther("TOOL_TRANSIENT_ERROR")
      case ToolBusiness => CodeOther("TOOL_BUSINESS_ERROR")
      case ToolValidation => CodeOther("TOOL_VALIDATION_FAILED")
      case UnknownTool => CodeOther("UNKNOWN_TOOL")
      case ToolPermission => CodeOther("TOOL_PERMISSION_DENIED")
      case ToolOutcomeUnknown => CodeToolOutcomeUnknown
    }

    function Reason(): TerminationReason {
      match this
      case ToolValidation => TOOL_VALIDATION_FAILED
      case UnknownTool => UNKNOWN_TOOL
      case ToolPermission => TOOL_PERMISSION_DENIED
      case ToolOutcomeUnknown => TOOL_OUTCOME_UNKNOWN
      case _ => TOOL_FAILED
    }
  }

  // What a handler or a ledger call inside the `try` block can raise.
  datatype Exc =
    | IsToolError(error: ToolError)
    | TimedOut
    | HttpStatus(status: nat)
    | NetworkOrDatabase
    | NotPermitted
    | ApplicationError
    | OtherException

  function MapError(exc: Exc): ToolError {
    match exc
    case IsToolError(e) => e
    case TimedOut => ToolTimeout
    case HttpStatus(n) => if n == 429 then ToolRateLimited else if n >= 500 then ToolUpstream else ToolBusiness
    case NetworkOrDatabase => ToolUpstream
    case NotPermitted => ToolPermission
    case ApplicationError => ToolBusiness
    case OtherException => ToolBusiness
  }

  datatype ToolDef = ToolDef(
    sideEffect: bool,
    reconcilable: bool,
    terminal: Option<string>,
    permitted: bool,
    maxAttempts: nat)

  function Text(j: Json): string { if j.JStr? then j.text else "" }

  function Texts(j: Json): seq<string> {
    if j.JArr? then seq(|j.items|, i requires 0 <= i < |j.items| => Text(j.items[i])) else []
  }

  function RemoveRepeats(s: seq<string>): (r: seq<string>)
    ensures forall x :: x in r <==> x in s
    ensures forall i, j | 0 <= i < j < |r| :: r[i] != r[j]
  {
    if s == [] then []
    else
      var head, last := RemoveRepeats(s[..|s| - 1]), s[|s| - 1];
      assert s == s[..|s| - 1] + [last];
      if last in head then head else head + [last]
  }

  function ObservedRefs(o: Obj): seq<string> {
    (if "task_id" in o && o["task_id"].JStr? && o["task_id"].text != "" then [o["task_id"].text] else []) +
    (if "result" in o && o["result"].JObj? && "attempt_ids" in o["result"].fields
     then Texts(o["result"].fields["attempt_ids"]) else [])
  }

  function AllRefs(observations: seq<Obj>): seq<string> {
    if observations == [] then []
    else AllRefs(observations[..|observations| - 1]) + ObservedRefs(observations[|observations| - 1])
  }

  // `_runtime_evidence_refs`
  function EvidenceRefs(observations: seq<Obj>): seq<string> { RemoveRepeats(AllRefs(observations)) }

  predicate InRange(j: Json, low: real, high: real) {
    || (j.JInt? && low <= j.number as real <= high)
    || (j.JReal? && low <= j.ratio <= high)
  }

  // `ProposalArgs`, after `evidence_refs` has been dropped.
  predicate ValidProposalArgs(args: Obj) {
    && args.Keys <= {"reason_codes", "confidence", "adjustment_factor", "evidence_refs"}
    && "reason_codes" in args && args["reason_codes"].JArr? && 1 <= |args["reason_codes"].items| <= 16
    && (forall j | j in args["reason_codes"].items :: j.JStr?)
    && "confidence" in args && InRange(args["confidence"], 0.0, 1.0)
    && ("adjustment_factor" in args ==> InRange(args["adjustment_factor"], 0.75, 1.25))
  }

  // The arguments whose digest the ledger stores: the model's, with the harness's evidence.
  function BoundArguments(call: ToolCall, observations: seq<Obj>): Obj {
    var refs := EvidenceRefs(observations);
    call.arguments["evidence_refs" := JArr(seq(|refs|, i requires 0 <= i < |refs| => JStr(refs[i])))]
  }

  // Everything `execute` checks before it touches the ledger.
  function Precheck(def: ToolDef, call: ToolCall): Option<ToolError> {
    if def.sideEffect && !ValidProposalArgs(call.arguments) then Some(ToolValidation)
    else if (def.sideEffect && call.key.None?) || !def.permitted then Some(ToolPermission)
    else None
  }

  datatype ToolPc =
    | Begin
    | PreReconcile
    | PreSucceed(found: Obj)
    | Restart
    | Handler(attempt: nat)
    | Succeed(attempt: nat, result: Obj)
    | MarkUnknown(attempt: nat, error: ToolError)
    | Reconcile(attempt: nat, error: ToolError)
    | LateSucceed(found: Obj)
    | MarkStarted(attempt: nat)
    | MarkFail(error: ToolError)

  // What the world decides at one step: whether the step raises, whether a raising handler had
  // already committed, what a read returns, the id of a new row, and whether the retry budget is up.
  datatype Outcome = Outcome(threw: Option<Exc>, effect: bool, value: Obj, freshId: string, giveUp: bool)

  datatype ToolMove =
    | Next(pc: ToolPc)
    | Returned(result: Obj, replayed: bool)
    | Raised(error: ToolError)
    | Lost

  function Retry(def: ToolDef, attempt: nat, error: ToolError, o: Outcome, again: ToolPc): ToolMove {
    if error.Transient() && attempt < def.maxAttempts && !o.giveUp then Next(again) else Raised(error)
  }

  // The `except` block of the attempt loop.
  function OnError(def: ToolDef, attempt: nat, exc: Exc, o: Outcome): ToolMove {
    var e := MapError(exc);
    if def.sideEffect then Next(if e.Transient() then MarkUnknown(attempt, e) else MarkFail(e))
    else Retry(def, attempt, e, o, Handler(attempt + 1))
  }

  predicate HasEvidence(digest: Obj) {
    "evidence_refs" in digest && digest["evidence_refs"] != JArr([])
  }

  function HandlerStep(
    def: ToolDef, db: Db, token: nat, now: int, call: ToolCall, digest: Obj, attempt: nat, o: Outcome
  ): (Db, ToolMove)
  {
    if attempt > def.maxAttempts then (db, Raised(ToolBusiness))
    else if !def.sideEffect || call.key.None? then
      (db, if o.threw.Some? then OnError(def, attempt, o.threw.value, o) else Returned(o.value, false))
    else if o.threw.Some? && !o.effect then (db, OnError(def, attempt, o.threw.value, o))
    else if !FencePasses(db.run, token, None, now) then (db, OnError(def, attempt, OtherException, o))
    else if call.key.value !in db.proposals && !HasEvidence(digest) then
      (db, OnError(def, attempt, ApplicationError, o))
    else
      var committed := ProposeTxn(db, call.name, call.key.value, o.freshId);
      if o.threw.None? then (committed, Next(Succeed(attempt, ProposalResult(committed.proposals[call.key.value]))))
      else (committed, OnError(def, attempt, o.threw.value, o))
  }

  function LedgerStep(updated: Option<Db>, db: Db, move: ToolMove): (Db, ToolMove) {
    if updated.Some? then (updated.value, move) else (db, Lost)
  }

  function BeginStep(db: Db, token: nat, now: int, lk: LedgerKey, digest: Obj): (Db, ToolMove) {
    match BeginTxn(db, token, now, lk, digest)
    case BeginStale => (db, Lost)
    case BeginMismatch => (db, Raised(ToolValidation))
    case BeginExisting(r) =>
      (db, if r.status == SUCCEEDED && r.result.Some? then Returned(r.result.value, true) else Next(PreReconcile))
    case BeginNew(r) => (db.(ledger := db.ledger[lk := r]), Next(Handler(1)))
  }

  function ToolStep(
    def: ToolDef, db: Db, token: nat, now: int, call: ToolCall, digest: Obj, pc: ToolPc, o: Outcome
  ): (Db, ToolMove)
  {
    var key := call.key.GetOr("");
    var lk := LedgerKey(call.name, key);
    match pc
    case Begin => BeginStep(db, token, now, lk, digest)
    case PreReconcile =>
      var found := if def.reconcilable then ReconcileTxn(db, call.name, key) else None;
      (db, if found.Some? then Next(PreSucceed(found.value))
           else if def.reconcilable then Next(Restart) else Raised(ToolOutcomeUnknown))
    case PreSucceed(r) => LedgerStep(UpdateTxn(db, token, now, lk, SUCCEEDED, Some(r), None), db, Returned(r, true))
    case Restart => LedgerStep(UpdateTxn(db, token, now, lk, STARTED, None, None), db, Next(Handler(1)))
    case Handler(n) => HandlerStep(def, db, token, now, call, digest, n, o)
    case Succeed(n, r) =>
      if o.threw.Some? then (db, OnError(def, n, o.threw.value, o))
      else
        var updated := UpdateTxn(db, token, now, lk, SUCCEEDED, Some(r), None);
        if updated.Some? then (updated.value, Returned(r, false)) else (db, OnError(def, n, OtherException, o))
    case MarkUnknown(n, e) =>
      LedgerStep(UpdateTxn(db, token, now, lk, UNKNOWN, None, Some(e.Code())), db, Next(Reconcile(n, e)))
    case Reconcile(n, e) =>
      var found := if def.reconcilable then ReconcileTxn(db, call.name, key) else None;
      (db, if found.Some? then Next(LateSucceed(found.value)) else Retry(def, n, e, o, MarkStarted(n + 1)))
    case LateSucceed(r) => LedgerStep(UpdateTxn(db, token, now, lk, SUCCEEDED, Some(r), None), db, Returned(r, true))
    case MarkStarted(n) => LedgerStep(UpdateTxn(db, token, now, lk, STARTED, None, None), db, Next(Handler(n)))
    case MarkFail(e) =>
      LedgerStep(UpdateTxn(db, token, now, lk, LEDGER_FAILED, None, Some(e.Code())), db, Raised(e))
  }
}
