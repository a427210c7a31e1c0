// app/infrastructure/adapters/model_gateway.py, `QwenModelGateway.decide`: one request, and one more to repair a
// malformed answer; and inputs on which the accounting fails.
module QwenSpec {
  import opened Wrappers
  import opened Contracts
  import opened Keys
  import opened GatewaySpec

  datatype Message = Parsed(action: ModelAction) | Malformed

  datatype Reply =
    | Answer(message: Message, inputTokens: nat, outputTokens: nat, answerMs: nat)
    | Failure(code: ModelErrorCode, failureMs: nat)

  // What the network answers, by the number of requests sent so far.
  type Network = nat -> Reply

  function AttemptOf(name: string, purpose: Purpose, r: Reply): ModelAttempt {
    match r
    case Answer(_, i, o, ms) => ModelAttempt(name, purpose, None, i, o, ms)
    case Failure(code, ms) => ModelAttempt(name, purpose, Some(code), 0, 0, ms)
  }

  function Bound(action: ModelAction, st: RuntimeState): ModelAction {
    BindIdempotency(action, st.identity.runId, st.loopCount + 1)
  }

  function AnsweredAtOnce(action: ModelAction, a: ModelAttempt): ModelResult {
    ModelResult(action, a.modelName, a.inputTokens, a.outputTokens, a.latencyMs, [a], 0)
  }

  function AnsweredAfterRepair(action: ModelAction, a: ModelAttempt, b: ModelAttempt): ModelResult {
    ModelResult(action, b.modelName, a.inputTokens + b.inputTokens, a.outputTokens + b.outputTokens,
                a.latencyMs + b.latencyMs, [a, b], 1)
  }

  // `QwenModelGateway.decide`; its first request is number `n`.
  function QwenDecide(network: Network, name: string, st: RuntimeState, n: nat): Traced {
    var first := AttemptOf(name, PRIMARY, network(n));
    if network(n).Failure? then Traced(Unavailable([first]), [first])
    else if network(n).message.Parsed? then
      Traced(Result(AnsweredAtOnce(Bound(network(n).message.action, st), first)), [first])
    else if st.RemainingModelCalls() <= 1 || st.RemainingRepairCalls() == 0 then Traced(Structured([first]), [first])
    else
      var second := AttemptOf(name, REPAIR, network(n + 1));
      var both := [first, second];
      if network(n + 1).Failure? then Traced(Unavailable(both), both)
      else if network(n + 1).message.Parsed? then
        Traced(Result(AnsweredAfterRepair(Bound(network(n + 1).message.action, st), first, second)), both)
      else Traced(Structured(both), both)
  }

  function Qwen(network: Network, name: string): Gateway { (st: RuntimeState,
      n: nat) => QwenDecide(network, name, st, n) }

  lemma {:induction false} QwenReports(network: Network, name: string, st: RuntimeState, n: nat)
    ensures Reports(QwenDecide(network, name, st, n), st.RemainingModelCalls())
  {
    var first := AttemptOf(name, PRIMARY, network(n));
    var second := AttemptOf(name, REPAIR, network(n + 1));
    assert TallyOfFirst([first], 0) == TallyOfFirst([first, second], 0);
    assert Tally([first]) == TallyOfFirst([first], 1) == TallyOne(first);
    assert TallyOfFirst([first, second], 1) == TallyOne(first);
  }

  lemma {:induction false} QwenIsHonest(network: Network, name: string)
    ensures Honest(Qwen(network, name))
  {
    forall st, n ensures Reports(Qwen(network, name)(st, n), st.RemainingModelCalls()) {
      QwenReports(network, name, st, n);
    }
  }

  // Two requests and no result means that the repair request failed, so its error decides the retry.
  lemma {:induction false} RepairErrorDecidesTheRetry(network: Network, name: string, st: RuntimeState, n: nat)
    ensures
      var t := QwenDecide(network, name, st, n);
      |t.sent| == 2 && t.outcome.Unavailable? <==>
        && st.RemainingModelCalls() >= 2 && st.RemainingRepairCalls() > 0
        && network(n).Answer? && network(n).message.Malformed? && network(n + 1).Failure?
    ensures
      var t := QwenDecide(network, name, st, n);
      |t.sent| == 2 && t.outcome.Unavailable? ==>
        (AnyRetryable(t.outcome.attempts) <==> RetryableModelError(Some(network(n + 1).code)))
  {
    var first := AttemptOf(name, PRIMARY, network(n));
    var second := AttemptOf(name, REPAIR, network(n + 1));
    assert AnyRetryableOfFirst([first, second], 1) == RetryableModelError(first.error);
  }

  // ---- Where requests get lost -------------------------------------------------------------

  function QwenRouter(network: Network, available: (Model, nat) -> bool): Router {
    Router(Qwen(network, "flash"), Qwen(network, "plus"), available)
  }

  // A structured-output error reports only its own gateway call, so an earlier failed request of the
  // same `_call` is not in the list it carries.
  lemma {:induction false} StructuredErrorForgetsTheFailedRequest(network: Network,
      available: (Model, nat) -> bool, st: RuntimeState, ms: nat)
    requires st.RemainingModelCalls() >= 2 && st.RemainingRepairCalls() == 0 && available(PLUS, 0)
    requires network(0) == Failure(MODEL_TIMEOUT, ms) && network(1).Answer? && network(1).message.Malformed?
    ensures
      var t := RouterDecide(QwenRouter(network, available), st, false, 0);
      |t.sent| == 2 && t.outcome == Structured(t.sent[1..])
  {
    var r := QwenRouter(network, available);
    var remaining := st.RemainingModelCalls();
    var t := r.plus(GatewayState(st, remaining, 0), 0);
    assert t.outcome.attempts[0].error == Some(MODEL_TIMEOUT);
    var again := r.plus(GatewayState(st, remaining, 1), 1);
    assert [] + t.outcome.attempts == t.sent && |t.sent| == 1;
    assert PlusAttempts(r, st, remaining, 2, 2, t.sent, 1) == Traced(again.outcome, again.sent);
    assert CallPlus(r, st, remaining, 0) == PlusAttempts(r, st, remaining, 2, 1, [], 0);
  }

  // The flash model answers with low confidence, the plus model is unavailable: the error that leaves
  // `decide` names no request although one was sent and answered.
  lemma {:induction false} SecondOpinionForgetsTheFlashRequest(network: Network,
      available: (Model, nat) -> bool, st: RuntimeState,
                                            action: ModelAction, i: nat, o: nat, ms: nat)
    requires st.RemainingModelCalls() >= 2 && available(FLASH, 0) && !available(PLUS, 1)
    requires network(0) == Answer(Parsed(action), i, o, ms) && action.confidence < LOW_CONFIDENCE
    ensures
      var t := RouterDecide(QwenRouter(network, available), st, true, 0);
      |t.sent| == 1 && t.outcome == Unavailable([])
  {
    var r := QwenRouter(network, available);
    var flash := r.flash(GatewayState(st, st.RemainingModelCalls(), 0), 0);
    assert CallFlash(r, st, st.RemainingModelCalls(), 0) == flash;
    assert AsksAgain(flash.outcome, st.RemainingModelCalls());
  }

  // With two calls left, three requests go out.
  lemma {:induction false} OneRequestTooMany(network: Network,
      available: (Model, nat) -> bool, st: RuntimeState, i: nat, o: nat, ms: nat)
    requires st.RemainingModelCalls() == 2 && st.RemainingRepairCalls() > 0 && available(PLUS, 0)
    requires network(0) == Answer(Malformed, i, o, ms) && network(1) == Failure(MODEL_NETWORK_ERROR, ms)
    ensures |RouterDecide(QwenRouter(network, available), st, false, 0).sent| == 3
  {
    var r := QwenRouter(network, available);
    QwenIsHonest(network, "plus");
    PlusCallBudget(r, st, 2, 0);
    RepairErrorDecidesTheRetry(network, "plus", GatewayState(st, 2, 0), 0);
    assert Overspends(r, st, 2, 0);
  }
}
