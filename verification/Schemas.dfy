// app/harness/schemas.py: the runtime state as it is written to a checkpoint and read back.  The payload is
// the JSON object with one field per key; fingerprints stand for themselves.
module SchemaSpec {
  import opened Wrappers
  import opened Contracts

  // ---- Enumerations ------------------------------------------------------------------------

  function PhaseText(p: RuntimePhase): string {
    match p
    case READY => "READY"
    case TOOL_PENDING => "TOOL_PENDING"
    case FINAL_PENDING => "FINAL_PENDING"
    case TERMINATED => "TERMINATED"
  }

  function StallText(s: StallReason): string {
    match s
    case REPEATED_ACTION => "REPEATED_ACTION"
    case NO_NEW_EVIDENCE => "NO_NEW_EVIDENCE"
    case ACTION_OSCILLATION => "ACTION_OSCILLATION"
  }

  function ReasonText(r: TerminationReason): string {
    match r
    case COMPLETED => "COMPLETED"
    case INVALID_ACTION => "INVALID_ACTION"
    case STRUCTURED_OUTPUT_ERROR => "STRUCTURED_OUTPUT_ERROR"
    case UNKNOWN_TOOL => "UNKNOWN_TOOL"
    case TOOL_VALIDATION_FAILED => "TOOL_VALIDATION_FAILED"
    case TOOL_PERMISSION_DENIED => "TOOL_PERMISSION_DENIED"
    case TOOL_FAILED => "TOOL_FAILED"
    case TOOL_OUTCOME_UNKNOWN => "TOOL_OUTCOME_UNKNOWN"
    case CHECKPOINT_INVALID => "CHECKPOINT_INVALID"
    case STEP_BUDGET_EXCEEDED => "STEP_BUDGET_EXCEEDED"
    case TOOL_BUDGET_EXCEEDED => "TOOL_BUDGET_EXCEEDED"
    case TOKEN_BUDGET_EXCEEDED => "TOKEN_BUDGET_EXCEEDED"
    case MODEL_CALL_BUDGET_EXCEEDED => "MODEL_CALL_BUDGET_EXCEEDED"
    case REPAIR_BUDGET_EXCEEDED => "REPAIR_BUDGET_EXCEEDED"
    case TIME_BUDGET_EXCEEDED => "TIME_BUDGET_EXCEEDED"
    case LOOP_STALLED => "LOOP_STALLED"
    case MODEL_UNAVAILABLE => "MODEL_UNAVAILABLE"
    case CANCELLED => "CANCELLED"
    case STALE_WORKER => "STALE_WORKER"
    case INTERNAL_ERROR => "INTERNAL_ERROR"
  }

  const REASONS := [
    COMPLETED, INVALID_ACTION, TerminationReason.STRUCTURED_OUTPUT_ERROR, UNKNOWN_TOOL, TOOL_VALIDATION_FAILED,
    TOOL_PERMISSION_DENIED, TOOL_FAILED, TOOL_OUTCOME_UNKNOWN, CHECKPOINT_INVALID, STEP_BUDGET_EXCEEDED,
    TOOL_BUDGET_EXCEEDED, TOKEN_BUDGET_EXCEEDED, MODEL_CALL_BUDGET_EXCEEDED, REPAIR_BUDGET_EXCEEDED,
    TIME_BUDGET_EXCEEDED, LOOP_STALLED, TerminationReason.MODEL_UNAVAILABLE, CANCELLED, STALE_WORKER, INTERNAL_ERROR]

  // Length, first and sixth letter tell the texts apart.
  function Signature(r: TerminationReason): (int, char, char) {
    match r
    case COMPLETED => (9, 'C', 'E')
    case INVALID_ACTION => (14, 'I', 'I')
    case STRUCTURED_OUTPUT_ERROR => (23, 'S', 'T')
    case UNKNOWN_TOOL => (12, 'U', 'W')
    case TOOL_VALIDATION_FAILED => (22, 'T', 'V')
    case TOOL_PERMISSION_DENIED => (22, 'T', 'P')
    case TOOL_FAILED => (11, 'T', 'F')
    case TOOL_OUTCOME_UNKNOWN => (20, 'T', 'O')
    case CHECKPOINT_INVALID => (18, 'C', 'P')
    case STEP_BUDGET_EXCEEDED => (20, 'S', 'B')
    case TOOL_BUDGET_EXCEEDED => (20, 'T', 'B')
    case TOKEN_BUDGET_EXCEEDED => (21, 'T', '_')
    case MODEL_CALL_BUDGET_EXCEEDED => (26, 'M', '_')
    case REPAIR_BUDGET_EXCEEDED => (22, 'R', 'R')
    case TIME_BUDGET_EXCEEDED => (20, 'T', 'B')
    case LOOP_STALLED => (12, 'L', 'S')
    case MODEL_UNAVAILABLE => (17, 'M', '_')
    case CANCELLED => (9, 'C', 'L')
    case STALE_WORKER => (12, 'S', '_')
    case INTERNAL_ERROR => (14, 'I', 'N')
  }

  lemma {:induction false} TextHasSignature(r: TerminationReason)
    ensures |ReasonText(r)| == Signature(r).0 && ReasonText(r)[0] == Signature(r).1 && ReasonText(r)[5] == Signature(r).2
  {
  }

  lemma {:induction false} ReasonTextInjective(a: TerminationReason, b: TerminationReason)
    requires ReasonText(a) == ReasonText(b)
    ensures a == b
  {
    TextHasSignature(a);
    TextHasSignature(b);
    if a == TOOL_BUDGET_EXCEEDED || a == TIME_BUDGET_EXCEEDED {
      assert "TOOL_BUDGET_EXCEEDED"[1] == 'O' && "TIME_BUDGET_EXCEEDED"[1] == 'I';
    }
  }

  // The value of an enumeration text, as the enumeration's constructor finds it.
  function FindReason(text: string, k: nat): Option<TerminationReason>
    requires k <= |REASONS|
  {
    if k == 0 then None else if ReasonText(REASONS[k - 1]) == text then Some(REASONS[k - 1]) else FindReason(text, k - 1)
  }

  function ParseReason(text: string): Option<TerminationReason> { FindReason(text, |REASONS|) }

  function Place(r: TerminationReason): (k: nat)
    ensures k < |REASONS| && REASONS[k] == r
  {
    match r
    case COMPLETED => 0
    case INVALID_ACTION => 1
    case STRUCTURED_OUTPUT_ERROR => 2
    case UNKNOWN_TOOL => 3
    case TOOL_VALIDATION_FAILED => 4
    case TOOL_PERMISSION_DENIED => 5
    case TOOL_FAILED => 6
    case TOOL_OUTCOME_UNKNOWN => 7
    case CHECKPOINT_INVALID => 8
    case STEP_BUDGET_EXCEEDED => 9
    case TOOL_BUDGET_EXCEEDED => 10
    case TOKEN_BUDGET_EXCEEDED => 11
    case MODEL_CALL_BUDGET_EXCEEDED => 12
    case REPAIR_BUDGET_EXCEEDED => 13
    case TIME_BUDGET_EXCEEDED => 14
    case LOOP_STALLED => 15
    case MODEL_UNAVAILABLE => 16
    case CANCELLED => 17
    case STALE_WORKER => 18
    case INTERNAL_ERROR => 19
  }

  lemma {:induction false} FindReasonFinds(r: TerminationReason, k: nat)
    requires Place(r) < k <= |REASONS|
    ensures FindReason(ReasonText(r), k) == Some(r)
  {
    if ReasonText(REASONS[k - 1]) == ReasonText(r) {
      ReasonTextInjective(REASONS[k - 1], r);
    } else {
      FindReasonFinds(r, k - 1);
    }
  }

  lemma {:induction false} FindReasonIsRight(text: string, k: nat)
    requires k <= |REASONS| && FindReason(text, k).Some?
    ensures ReasonText(FindReason(text, k).value) == text
  {
    if ReasonText(REASONS[k - 1]) != text { FindReasonIsRight(text, k - 1); }
  }

  function ParsePhase(text: string): Option<RuntimePhase> {
    if text == "READY" then Some(READY)
    else if text == "TOOL_PENDING" then Some(TOOL_PENDING)
    else if text == "FINAL_PENDING" then Some(FINAL_PENDING)
    else if text == "TERMINATED" then Some(TERMINATED)
    else None
  }

  lemma {:induction false} PhaseRoundTrip(p: RuntimePhase)
    ensures ParsePhase(PhaseText(p)) == Some(p)
  {
    assert "TOOL_PENDING"[0] == 'T' && "FINAL_PENDING"[0] == 'F' && "READY"[0] == 'R';
    assert |"TOOL_PENDING"| == 12 && |"TERMINATED"| == 10;
  }

  function ParseStall(text: string): Option<StallReason> {
    if text == "REPEATED_ACTION" then Some(REPEATED_ACTION)
    else if text == "NO_NEW_EVIDENCE" then Some(NO_NEW_EVIDENCE)
    else if text == "ACTION_OSCILLATION" then Some(ACTION_OSCILLATION)
    else None
  }

  lemma {:induction false} StallRoundTrip(s: StallReason)
    ensures ParseStall(StallText(s)) == Some(s)
  {
    assert "REPEATED_ACTION"[0] == 'R' && "NO_NEW_EVIDENCE"[0] == 'N' && "ACTION_OSCILLATION"[0] == 'A';
  }

  // ---- Error codes -------------------------------------------------------------------------

  function CodeText(c: ErrorCode): string {
    match c
    case CodeModelUnavailable => "MODEL_UNAVAILABLE"
    case CodeToolTimeout => "TOOL_TIMEOUT"
    case CodeToolRateLimited => "TOOL_RATE_LIMITED"
    case CodeToolUpstream => "TOOL_UPSTREAM_ERROR"
    case CodeToolOutcomeUnknown => "TOOL_OUTCOME_UNKNOWN"
    case CodeBudget(r) => ReasonText(r)
    case CodeOther(text) => text
  }

  predicate BudgetReason(r: TerminationReason) {
    r in {STEP_BUDGET_EXCEEDED, TOOL_BUDGET_EXCEEDED, TOKEN_BUDGET_EXCEEDED, MODEL_CALL_BUDGET_EXCEEDED,
          REPAIR_BUDGET_EXCEEDED, TIME_BUDGET_EXCEEDED}
  }

  function ParseCode(text: string): ErrorCode {
    if text == "MODEL_UNAVAILABLE" then CodeModelUnavailable
    else if text == "TOOL_TIMEOUT" then CodeToolTimeout
    else if text == "TOOL_RATE_LIMITED" then CodeToolRateLimited
    else if text == "TOOL_UPSTREAM_ERROR" then CodeToolUpstream
    else if text == "TOOL_OUTCOME_UNKNOWN" then CodeToolOutcomeUnknown
    else
      var r := ParseReason(text);
      if r.Some? && BudgetReason(r.value) then CodeBudget(r.value) else CodeOther(text)
  }

  lemma {:induction false} ParsedCodeKeepsItsText(text: string)
    ensures CodeText(ParseCode(text)) == text
  {
    if ParseReason(text).Some? { FindReasonIsRight(text, |REASONS|); }
  }

  // A code that its text determines: every code but a `CodeOther` with the text of another one, or a
  // budget code for a reason that is no budget's.
  predicate Canonical(c: ErrorCode) { ParseCode(CodeText(c)) == c }

  lemma {:induction false} BudgetCodesAreCanonical(r: TerminationReason)
    requires BudgetReason(r)
    ensures Canonical(CodeBudget(r))
  {
    FindReasonFinds(r, |REASONS|);
    TextHasSignature(r);
    assert |"MODEL_UNAVAILABLE"| == 17 && |"TOOL_TIMEOUT"| == 12 && |"TOOL_RATE_LIMITED"| == 17;
    assert |"TOOL_UPSTREAM_ERROR"| == 19 && "TOOL_OUTCOME_UNKNOWN"[5] == 'O';
  }

  lemma {:induction false} ReopeningCodesAreCanonical(c: ErrorCode)
    requires c in {CodeModelUnavailable, CodeToolTimeout, CodeToolRateLimited, CodeToolUpstream, CodeToolOutcomeUnknown}
    ensures Canonical(c)
  {
    assert |"MODEL_UNAVAILABLE"| == 17 && |"TOOL_TIMEOUT"| == 12 && |"TOOL_RATE_LIMITED"| == 17;
    assert |"TOOL_UPSTREAM_ERROR"| == 19 && |"TOOL_OUTCOME_UNKNOWN"| == 20;
    assert "MODEL_UNAVAILABLE"[0] == 'M' && "TOOL_RATE_LIMITED"[0] == 'T';
  }
}

module PayloadSpec {
  import opened Wrappers
  import opened Contracts
  import opened SchemaSpec

  // `RuntimeStatePayload`, dumped to JSON: the members of the object.
  datatype Payload = Payload(
    runId: Json, studentId: Json, goal: Json, userId: Json, roles: Json,
    loopCount: Json, modelCallCount: Json, toolCallCount: Json, inputTokens: Json, outputTokens: Json,
    repairCallCount: Json, modelCallLimit: Json, repairCallLimit: Json, startedAt: Json, observations: Json,
    actionFingerprints: Json, observationFingerprints: Json, checkpointVersion: Json, fencingToken: Json, resumed: Json,
    phase: Json, pendingToolCall: Json, pendingStepId: Json, finalAction: Json, stallReason: Json,
    terminationReason: Json, lastErrorCode: Json)

  // ---- Writing and reading one member ------------------------------------------------------

  function FromOpt(t: Option<string>): Json { if t.None? then JNull else JStr(t.value) }

  predicate IsOptText(j: Json) { j.JNull? || j.JStr? }

  function ToOpt(j: Json): Option<string> { if j.JStr? then Some(j.text) else None }

  function FromTexts(ts: seq<string>): Json { JArr(seq(|ts|, i requires 0 <= i < |ts| => JStr(ts[i]))) }

  predicate IsTexts(j: Json) { j.JArr? && forall i :: 0 <= i < |j.items| ==> j.items[i].JStr? }

  function ToTexts(j: Json): seq<string>
    requires IsTexts(j)
  {
    seq(|j.items|, i requires 0 <= i < |j.items| => j.items[i].text)
  }

  lemma {:induction false} TextsRoundTrip(ts: seq<string>)
    ensures IsTexts(FromTexts(ts)) && ToTexts(FromTexts(ts)) == ts
  {
  }

  function FromObjs(os: seq<Obj>): Json { JArr(seq(|os|, i requires 0 <= i < |os| => JObj(os[i]))) }

  predicate IsObjs(j: Json) { j.JArr? && forall i :: 0 <= i < |j.items| ==> j.items[i].JObj? }

  function ToObjs(j: Json): seq<Obj>
    requires IsObjs(j)
  {
    seq(|j.items|, i requires 0 <= i < |j.items| => j.items[i].fields)
  }

  lemma {:induction false} ObjsRoundTrip(os: seq<Obj>)
    ensures IsObjs(FromObjs(os)) && ToObjs(FromObjs(os)) == os
  {
  }

  predicate IsNat(j: Json) { j.JInt? && j.number >= 0 }

  function ToNat(j: Json): nat
    requires IsNat(j)
  {
    j.number
  }

  // `StoredToolCall`: exactly these members.
  function FromCall(c: ToolCall): Json {
    JObj(map["name" := JStr(c.name), "arguments" := JObj(c.arguments), "idempotency_key" := FromOpt(c.key)])
  }

  predicate IsCall(j: Json) {
    && j.JObj? && j.fields.Keys <= {"name", "arguments", "idempotency_key"}
    && "name" in j.fields && j.fields["name"].JStr?
    && "arguments" in j.fields && j.fields["arguments"].JObj?
    && ("idempotency_key" in j.fields ==> IsOptText(j.fields["idempotency_key"]))
  }

  function ToCall(j: Json): ToolCall
    requires IsCall(j)
  {
    ToolCall(j.fields["name"].text, j.fields["arguments"].fields,
             if "idempotency_key" in j.fields then ToOpt(j.fields["idempotency_key"]) else None)
  }

  lemma {:induction false} CallRoundTrip(c: ToolCall)
    ensures IsCall(FromCall(c)) && ToCall(FromCall(c)) == c
  {
    assert "name" != "arguments" && "name" != "idempotency_key" && "arguments" != "idempotency_key" by {
      assert |"name"| == 4 && |"arguments"| == 9 && |"idempotency_key"| == 15;
    }
  }

  function FromOptCall(c: Option<ToolCall>): Json { if c.None? then JNull else FromCall(c.value) }

  predicate IsOptCall(j: Json) { j.JNull? || IsCall(j) }

  function ToOptCall(j: Json): Option<ToolCall>
    requires IsOptCall(j)
  {
    if j.JNull? then None else Some(ToCall(j))
  }

  // `StoredModelAction`.
  function FromAction(a: ModelAction): Json {
    JObj(map["decision" := FromOpt(a.decision), "confidence" := JReal(a.confidence), "reason_codes" := FromTexts(a.reasonCodes),
             "tool_call" := FromOptCall(a.toolCall), "finish" := JBool(a.finish)])
  }

  predicate IsAction(j: Json) {
    && j.JObj? && j.fields.Keys <= {"decision", "confidence", "reason_codes", "tool_call", "finish"}
    && "decision" in j.fields && IsOptText(j.fields["decision"])
    && "confidence" in j.fields && j.fields["confidence"].JReal?
    && "reason_codes" in j.fields && IsTexts(j.fields["reason_codes"])
    && "tool_call" in j.fields && IsOptCall(j.fields["tool_call"])
    && "finish" in j.fields && j.fields["finish"].JBool?
  }

  function ToAction(j: Json): ModelAction
    requires IsAction(j)
  {
    ModelAction(ToOpt(j.fields["decision"]), j.fields["confidence"].ratio, ToTexts(j.fields["reason_codes"]),
                ToOptCall(j.fields["tool_call"]), j.fields["finish"].flag)
  }

  lemma {:induction false} MembersDiffer()
    ensures "decision" != "confidence" && "decision" != "reason_codes" && "decision" != "tool_call" && "decision" != "finish"
    ensures "confidence" != "reason_codes" && "confidence" != "tool_call" && "confidence" != "finish"
    ensures "reason_codes" != "tool_call" && "reason_codes" != "finish" && "tool_call" != "finish"
  {
    assert |"decision"| == 8 && |"confidence"| == 10 && |"reason_codes"| == 12 && |"tool_call"| == 9 && |"finish"| == 6;
  }

  lemma {:induction false} ActionRoundTrip(a: ModelAction)
    ensures IsAction(FromAction(a)) && ToAction(FromAction(a)) == a
  {
    MembersDiffer();
    TextsRoundTrip(a.reasonCodes);
    if a.toolCall.Some? { CallRoundTrip(a.toolCall.value); }
  }

  function FromOptAction(a: Option<ModelAction>): Json { if a.None? then JNull else FromAction(a.value) }

  predicate IsOptAction(j: Json) { j.JNull? || IsAction(j) }

  function ToOptAction(j: Json): Option<ModelAction>
    requires IsOptAction(j)
  {
    if j.JNull? then None else Some(ToAction(j))
  }

  predicate IsPhase(j: Json) { j.JStr? && ParsePhase(j.text).Some? }

  function FromOptStall(s: Option<StallReason>): Json { if s.None? then JNull else JStr(StallText(s.value)) }

  predicate IsOptStall(j: Json) { j.JNull? || (j.JStr? && ParseStall(j.text).Some?) }

  function ToOptStall(j: Json): Option<StallReason> { if j.JStr? then ParseStall(j.text) else None }

  function FromOptReason(r: Option<TerminationReason>): Json { if r.None? then JNull else JStr(ReasonText(r.value)) }

  predicate IsOptReason(j: Json) { j.JNull? || (j.JStr? && ParseReason(j.text).Some?) }

  function ToOptReason(j: Json): Option<TerminationReason> { if j.JStr? then ParseReason(j.text) else None }

  function FromOptCode(c: Option<ErrorCode>): Json { if c.None? then JNull else JStr(CodeText(c.value)) }

  function ToOptCode(j: Json): Option<ErrorCode> { if j.JStr? then Some(ParseCode(j.text)) else None }

  // ---- The whole state ---------------------------------------------------------------------

  // The members, before any validator has run.
  function Write(st: RuntimeState): Payload {
    Payload(
      JStr(st.identity.runId), JStr(st.identity.studentId), JStr(st.identity.goal), FromOpt(st.identity.userId),
      FromTexts(st.identity.roles), JInt(st.loopCount), JInt(st.modelCalls), JInt(st.toolCalls), JInt(st.inputTokens),
      JInt(st.outputTokens), JInt(st.repairCalls), JInt(st.modelCallLimit), JInt(st.repairCallLimit),
      JInt(st.startedAt), FromObjs(st.observations), JArr(st.actionPrints), JArr(st.observationPrints),
      JInt(CHECKPOINT_VERSION), JInt(st.fencingToken), JBool(st.resumed), JStr(PhaseText(st.phase)),
      FromOptCall(st.pendingCall), FromOpt(st.pendingStep), FromOptAction(st.finalAction),
      FromOptStall(st.stallReason), FromOptReason(st.terminationReason), FromOptCode(st.lastError))
  }

  // Every member has its type.
  predicate WellTyped(p: Payload) {
    && p.runId.JStr? && p.studentId.JStr? && p.goal.JStr? && IsOptText(p.userId)
    && IsTexts(p.roles) && IsNat(p.loopCount) && IsNat(p.modelCallCount) && IsNat(p.toolCallCount)
    && IsNat(p.inputTokens) && IsNat(p.outputTokens) && IsNat(p.repairCallCount) && IsNat(p.modelCallLimit)
    && IsNat(p.repairCallLimit) && p.startedAt.JInt? && IsObjs(p.observations) && p.actionFingerprints.JArr?
    && p.observationFingerprints.JArr? && IsNat(p.fencingToken) && p.resumed.JBool? && IsPhase(p.phase)
    && IsOptCall(p.pendingToolCall) && IsOptText(p.pendingStepId) && IsOptAction(p.finalAction) && IsOptStall(p.stallReason)
    && IsOptReason(p.terminationReason) && IsOptText(p.lastErrorCode) && p.checkpointVersion == JInt(CHECKPOINT_VERSION)
  }

  function Read(p: Payload): RuntimeState
    requires WellTyped(p)
  {
    RuntimeState(
      Identity(p.runId.text, p.studentId.text, p.goal.text, ToOpt(p.userId), ToTexts(p.roles)),
      ToNat(p.loopCount), ToNat(p.modelCallCount), ToNat(p.toolCallCount), ToNat(p.inputTokens),
      ToNat(p.outputTokens), ToNat(p.repairCallCount), ToNat(p.modelCallLimit), ToNat(p.repairCallLimit),
      p.startedAt.number, ToObjs(p.observations), p.actionFingerprints.items, p.observationFingerprints.items,
      ToNat(p.fencingToken), p.resumed.flag, ParsePhase(p.phase.text).value, ToOptCall(p.pendingToolCall),
      ToOpt(p.pendingStepId), ToOptAction(p.finalAction), ToOptStall(p.stallReason), ToOptReason(p.terminationReason),
      ToOptCode(p.lastErrorCode))
  }

  // The validators of `StoredModelAction` and `RuntimeStatePayload`.
  predicate ValidShape(a: ModelAction) {
    0.0 <= a.confidence <= 1.0 && a.finish == a.toolCall.None? && (a.finish ==> a.decision.Some?)
  }

  predicate Acceptable(st: RuntimeState) {
    && st.modelCallLimit >= 1
    && (st.finalAction.Some? ==> ValidShape(st.finalAction.value))
    && (st.phase == TOOL_PENDING ==> st.pendingCall.Some?)
    && (st.phase == FINAL_PENDING ==> st.finalAction.Some?)
  }

  // `serialize_runtime_state`: a validator that fails raises.
  function Serialize(st: RuntimeState): Option<Payload> { if Acceptable(st) then Some(Write(st)) else None }

  // `deserialize_runtime_state`: None stands for CheckpointValidationError.
  function Deserialize(p: Payload): Option<RuntimeState> {
    if WellTyped(p) && Acceptable(Read(p)) then Some(Read(p).(resumed := true)) else None
  }

  predicate CanonicalError(st: RuntimeState) { st.lastError.Some? ==> Canonical(st.lastError.value) }

  lemma {:induction false} EnumsRoundTrip(st: RuntimeState)
    requires CanonicalError(st)
    ensures ParsePhase(PhaseText(st.phase)) == Some(st.phase)
    ensures IsOptStall(FromOptStall(st.stallReason)) && ToOptStall(FromOptStall(st.stallReason)) == st.stallReason
    ensures IsOptReason(FromOptReason(st.terminationReason)) && ToOptReason(FromOptReason(st.terminationReason)) == st.terminationReason
    ensures ToOptCode(FromOptCode(st.lastError)) == st.lastError
  {
    PhaseRoundTrip(st.phase);
    if st.stallReason.Some? { StallRoundTrip(st.stallReason.value); }
    if st.terminationReason.Some? { FindReasonFinds(st.terminationReason.value, |REASONS|); }
  }

  lemma {:induction false} OptionalsRoundTrip(call: Option<ToolCall>, action: Option<ModelAction>)
    ensures IsOptCall(FromOptCall(call)) && ToOptCall(FromOptCall(call)) == call
    ensures IsOptAction(FromOptAction(action)) && ToOptAction(FromOptAction(action)) == action
  {
    if call.Some? { CallRoundTrip(call.value); }
    if action.Some? { ActionRoundTrip(action.value); }
  }

  // What is written is well typed and read back unchanged.
  lemma {:induction false} WriteIsWellTyped(st: RuntimeState)
    requires CanonicalError(st)
    ensures WellTyped(Write(st))
  {
    EnumsRoundTrip(st);
    TextsRoundTrip(st.identity.roles);
    ObjsRoundTrip(st.observations);
    OptionalsRoundTrip(st.pendingCall, st.finalAction);
  }

  lemma {:induction false} ReadWrite(st: RuntimeState)
    requires CanonicalError(st)
    ensures WellTyped(Write(st)) && Read(Write(st)) == st
  {
    WriteIsWellTyped(st);
    EnumsRoundTrip(st);
    TextsRoundTrip(st.identity.roles);
    ObjsRoundTrip(st.observations);
    OptionalsRoundTrip(st.pendingCall, st.finalAction);
  }

  // The round trip of a checkpoint: exactly the states the validators accept come back, marked as resumed.
  lemma {:induction false} CheckpointRoundTrip(st: RuntimeState)
    requires CanonicalError(st)
    ensures Serialize(st).Some? <==> Acceptable(st)
    ensures Deserialize(Write(st)) == if Acceptable(st) then Some(st.(resumed := true)) else None
  {
    ReadWrite(st);
  }

  // Different states have different payloads, so a digest of the payload identifies the state.
  lemma {:induction false} PayloadIdentifiesTheState(a: RuntimeState, b: RuntimeState)
    requires CanonicalError(a) && CanonicalError(b) && Write(a) == Write(b)
    ensures a == b
  {
    ReadWrite(a);
    ReadWrite(b);
  }

  // Whatever payload is accepted, the state it yields can be written again and yields itself.
  lemma {:induction false} LoadedStatesPersist(p: Payload)
    requires Deserialize(p).Some?
    ensures
      var st := Deserialize(p).value;
      st.resumed && Serialize(st).Some? && Deserialize(Serialize(st).value) == Some(st)
  {
    var st := Deserialize(p).value;
    if st.lastError.Some? { ParsedCodeKeepsItsText(p.lastErrorCode.text); }
    CheckpointRoundTrip(st);
  }
}
