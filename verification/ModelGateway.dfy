// app/infrastructure/adapters/model_gateway.py: what a gateway call reports, and the router with retry,
// fallback and a call budget.
module GatewaySpec {
  import opened Wrappers
  import opened Contracts
  import opened Keys

  // How a call ends, with every request it really sent.
  datatype Outcome =
    | Result(result: ModelResult)
    | Unavailable(attempts: seq<ModelAttempt>)
    | Structured(attempts: seq<ModelAttempt>)

  datatype Traced = Traced(outcome: Outcome, sent: seq<ModelAttempt>)

  // What `decide` does for a state when `n` requests have been sent before it.
  type Gateway = (RuntimeState, nat) -> Traced

  // ---- What a gateway call reports ---------------------------------------------------------

  // A result that accounts for exactly these requests: the list, the sums, the repairs that came back.
  predicate Accounts(r: ModelResult, sent: seq<ModelAttempt>) {
    && r.attempts == sent && sent != []
    && var t := Tally(sent);
       r.inputTokens == t.inputTokens && r.outputTokens == t.outputTokens && r.latencyMs == t.latencyMs && r.repairCalls == t.repairs
  }

  predicate OneCall(o: Outcome, sent: seq<ModelAttempt>) {
    && sent != []
    && (o.Result? ==> Accounts(o.result, sent))
    && (o.Unavailable? ==> o.attempts == sent && Tally(sent).repairs == 0 && Tally(sent).failures > 0)
    && (o.Structured? ==> o.attempts == sent && Tally(sent).failures == 0)
  }

  // One request, or two when the state leaves two calls.
  predicate Reports(t: Traced, left: nat) {
    OneCall(t.outcome, t.sent) && |t.sent| <= 2 && (|t.sent| == 2 ==> left >= 2)
  }

  ghost predicate Honest(gateway: Gateway) {
    forall st, n :: Reports(gateway(st, n), st.RemainingModelCalls())
  }

  // ---- The router --------------------------------------------------------------------------

  datatype Model = FLASH | PLUS

  // The two gateways, and whether a model's circuit breaker lets a call through.
  datatype Router = Router(flash: Gateway, plus: Gateway, available: (Model, nat) -> bool)

  // HTTP statuses have three digits, so the code text starts with "MODEL_HTTP_5" for 500 to 599.
  predicate RetryableModelError(code: Option<ModelErrorCode>) {
    code.Some? &&
    match code.value
    case MODEL_TIMEOUT => true
    case MODEL_NETWORK_ERROR => true
    case MODEL_HTTP(status) => status == 429 || 500 <= status <= 599
    case MODEL_INVALID_RESPONSE => false
  }

  predicate AnyRetryable(attempts: seq<ModelAttempt>) { AnyRetryableOfFirst(attempts, |attempts|) }

  predicate AnyRetryableOfFirst(attempts: seq<ModelAttempt>, k: nat)
    requires k <= |attempts|
  {
    k > 0 && (RetryableModelError(attempts[k - 1].error) || AnyRetryableOfFirst(attempts, k - 1))
  }

  function WithFailed(failed: seq<ModelAttempt>, r: ModelResult): ModelResult {
    var t := Tally(failed);
    ModelResult(r.action, r.modelName, r.inputTokens + t.inputTokens, r.outputTokens + t.outputTokens,
                r.latencyMs + t.latencyMs, failed + r.attempts, r.repairCalls)
  }

  // An outcome, once the requests that failed before it are remembered.
  function Attach(failed: seq<ModelAttempt>, o: Outcome): Outcome {
    match o
    case Result(r) => Result(if failed == [] then r else WithFailed(failed, r))
    case Unavailable(a) => Unavailable(failed + a)
    case Structured(_) => o
  }

  function Combine(primary: ModelResult, fallback: ModelResult): ModelResult {
    ModelResult(fallback.action, fallback.modelName, primary.inputTokens + fallback.inputTokens,
                primary.outputTokens + fallback.outputTokens, primary.latencyMs + fallback.latencyMs,
                primary.attempts + fallback.attempts, primary.repairCalls + fallback.repairCalls)
  }

  // The copy of the state a gateway call sees: its counter leaves what the budget still allows.
  function GatewayState(st: RuntimeState, budget: nat, failed: nat): (s: RuntimeState)
    requires budget <= st.modelCallLimit
    ensures s.RemainingModelCalls() == if failed <= budget then budget - failed else 0
  {
    st.(modelCalls := st.modelCallLimit - budget + failed)
  }

  predicate Retries(t: Traced, attempts: nat, k: nat) {
    t.outcome.Unavailable? && AnyRetryable(t.outcome.attempts) && k < attempts
  }

  // The retry loop of `_call` for the plus model, from attempt number `k` on.
  function PlusAttempts(r: Router, st: RuntimeState, budget: nat, attempts: nat, k: nat, failed: seq<ModelAttempt>,
      n: nat): Traced
    requires budget <= st.modelCallLimit && 1 <= k <= attempts
    decreases attempts - k
  {
    var t := r.plus(GatewayState(st, budget, |failed|), n);
    if !Retries(t, attempts, k) then Traced(Attach(failed, t.outcome), t.sent)
    else
      var rest := PlusAttempts(r, st, budget, attempts, k + 1, failed + t.outcome.attempts, n + |t.sent|);
      Traced(rest.outcome, t.sent + rest.sent)
  }

  function CallPlus(r: Router, st: RuntimeState, budget: nat, n: nat): Traced
    requires budget <= st.modelCallLimit
  {
    if !r.available(PLUS, n) || budget == 0 then Traced(Unavailable([]), [])
    else PlusAttempts(r, st, budget, if budget < 2 then budget else 2, 1, [], n)
  }

  function CallFlash(r: Router, st: RuntimeState, budget: nat, n: nat): Traced
    requires budget <= st.modelCallLimit
  {
    if !r.available(FLASH, n) || budget == 0 then Traced(Unavailable([]), [])
    else
      var t := r.flash(GatewayState(st, budget, 0), n);
      if !t.outcome.Unavailable? || |t.outcome.attempts| >= budget then t
      else
        var failed := t.outcome.attempts;
        var f := CallPlus(r, st, budget - |failed|, n + |t.sent|);
        Traced(Attach(failed, f.outcome), t.sent + f.sent)
  }

  const LOW_CONFIDENCE := 0.75

  // Does a flash answer get a second opinion from the plus model?
  predicate AsksAgain(flash: Outcome, remaining: nat) {
    flash.Result? && flash.result.action.confidence < LOW_CONFIDENCE && flash.result.ModelCallCount() < remaining
  }

  function SecondOpinion(r: ModelResult, f: Outcome): Outcome {
    if f.Result? then Result(Combine(r, f.result)) else f
  }

  function Joined(flash: Traced, f: Traced): Traced
    requires flash.outcome.Result?
  {
    Traced(SecondOpinion(flash.outcome.result, f.outcome), flash.sent + f.sent)
  }

  // The second opinion on the flash model's call, if one is asked for.
  function SecondCall(r: Router, st: RuntimeState, flash: Traced, n: nat): Traced {
    var remaining := st.RemainingModelCalls();
    if !AsksAgain(flash.outcome, remaining) then flash
    else CallPlus(r, st, remaining - flash.outcome.result.ModelCallCount(), n + |flash.sent|)
  }

  // What becomes of the two calls: the flash model's stands, or they are joined.
  function Chosen(flash: Traced, second: Traced, remaining: nat): Traced {
    if AsksAgain(flash.outcome, remaining) then Joined(flash, second) else flash
  }

  // The goals for which the flash model is asked first.
  predicate Explaining(st: RuntimeState) { st.identity.goal == "EXPLAIN" || st.identity.goal == "SUMMARIZE" }

  // `ModelRouter.decide`; `explaining` is that test of the goal.
  function RouterDecide(r: Router, st: RuntimeState, explaining: bool, n: nat): Traced {
    var remaining := st.RemainingModelCalls();
    if !explaining then CallPlus(r, st, remaining, n)
    else
      var flash := CallFlash(r, st, remaining, n);
      Chosen(flash, SecondCall(r, st, flash, n), remaining)
  }

  // ---- Accounting --------------------------------------------------------------------------

  // Requests that were sent and did not lead to a result.
  predicate Wasted(failed: seq<ModelAttempt>) {
    Tally(failed).repairs == 0 && (failed == [] || Tally(failed).failures > 0)
  }

  // What an outcome says about all requests that were sent: a result and an unavailability account
  // for every one of them, a structured-output error exactly when none of them failed.
  predicate Tells(o: Outcome, sent: seq<ModelAttempt>) {
    && (o.Result? ==> Accounts(o.result, sent))
    && (o.Unavailable? ==> o.attempts == sent && Wasted(sent))
    && (o.Structured? ==> |o.attempts| <= |sent| && (o.attempts == sent <==> Tally(sent).failures == 0))
  }

  lemma {:induction false} AccountsForMore(failed: seq<ModelAttempt>, r: ModelResult)
    requires Accounts(r, r.attempts) && Tally(failed).repairs == 0
    ensures Accounts(WithFailed(failed, r), failed + r.attempts)
  {
    TallyOfConcat(failed, r.attempts);
  }

  // One gateway call, or a whole later call, after the requests `failed`.
  lemma {:induction false} AttachTells(failed: seq<ModelAttempt>, o: Outcome, sent: seq<ModelAttempt>)
    requires Wasted(failed) && Tells(o, sent)
    ensures Tells(Attach(failed, o), failed + sent)
  {
    TallyOfConcat(failed, sent);
    assert failed == [] ==> failed + sent == sent;
    if o.Result? { AccountsForMore(failed, o.result); }
  }

  // A later call's report, read as the report of everything from an earlier request on.
  lemma {:induction false} TellsEarlier(failed: seq<ModelAttempt>, sent: seq<ModelAttempt>, rest: Traced, whole: Traced)
    requires whole == Traced(rest.outcome, sent + rest.sent) && Tells(rest.outcome, (failed + sent) + rest.sent)
    ensures Tells(whole.outcome, failed + whole.sent)
  {
    assert failed + whole.sent == (failed + sent) + rest.sent;
  }

  lemma {:induction false} PlusAttemptsTell(r: Router, st: RuntimeState, budget: nat, attempts: nat, k: nat,
      failed: seq<ModelAttempt>, n: nat)
    requires Honest(r.plus) && budget <= st.modelCallLimit && 1 <= k <= attempts && Wasted(failed)
    ensures
      var t := PlusAttempts(r, st, budget, attempts, k, failed, n);
      Tells(t.outcome, failed + t.sent)
    decreases attempts - k
  {
    var t := r.plus(GatewayState(st, budget, |failed|), n);
    var whole := PlusAttempts(r, st, budget, attempts, k, failed, n);
    AttachTells(failed, t.outcome, t.sent);
    if Retries(t, attempts, k) {
      assert t.outcome.attempts == t.sent && Wasted(failed + t.sent);
      var rest := PlusAttempts(r, st, budget, attempts, k + 1, failed + t.sent, n + |t.sent|);
      PlusAttemptsTell(r, st, budget, attempts, k + 1, failed + t.sent, n + |t.sent|);
      TellsEarlier(failed, t.sent, rest, whole);
    } else {
      assert whole == Traced(Attach(failed, t.outcome), t.sent);
    }
  }

  lemma {:induction false} PlusTells(r: Router, st: RuntimeState, budget: nat, n: nat)
    requires Honest(r.plus) && budget <= st.modelCallLimit
    ensures Told(CallPlus(r, st, budget, n))
  {
    if r.available(PLUS, n) && budget > 0 {
      PlusAttemptsTell(r, st, budget, if budget < 2 then budget else 2, 1, [], n);
      assert [] + CallPlus(r, st, budget, n).sent == CallPlus(r, st, budget, n).sent;
    }
  }

  predicate Told(t: Traced) { Tells(t.outcome, t.sent) }

  lemma {:induction false} FlashTells(r: Router, st: RuntimeState, budget: nat, n: nat)
    requires Honest(r.plus) && Honest(r.flash) && budget <= st.modelCallLimit
    ensures Told(CallFlash(r, st, budget, n))
  {
    if r.available(FLASH, n) && budget > 0 {
      var t := r.flash(GatewayState(st, budget, 0), n);
      assert Reports(t, budget);
      if |t.sent| < budget { PlusTells(r, st, budget - |t.sent|, n + |t.sent|); }
      OneCallTells(t);
      FlashOrFallbackTells(r, st, budget, n, t);
    } else {
      assert CallFlash(r, st, budget, n) == Traced(Unavailable([]), []);
    }
  }

  lemma {:induction false} OneCallTells(t: Traced)
    requires OneCall(t.outcome, t.sent)
    ensures Told(t) && (t.outcome.Unavailable? ==> t.outcome.attempts == t.sent && Wasted(t.sent))
  {
  }

  lemma {:induction false} FlashOrFallbackTells(r: Router, st: RuntimeState, budget: nat, n: nat, t: Traced)
    requires 0 < budget <= st.modelCallLimit && r.available(FLASH, n) && t == r.flash(GatewayState(st, budget, 0), n)
    requires Told(t) && (t.outcome.Unavailable? ==> t.outcome.attempts == t.sent && Wasted(t.sent))
    requires |t.sent| < budget ==> Told(CallPlus(r, st, budget - |t.sent|, n + |t.sent|))
    ensures Told(CallFlash(r, st, budget, n))
  {
    if t.outcome.Unavailable? && |t.sent| < budget {
      var f := CallPlus(r, st, budget - |t.sent|, n + |t.sent|);
      FallbackIsAttached(r, st, budget, n, t);
      FallbackTells(t, f, CallFlash(r, st, budget, n));
    }
  }

  lemma {:induction false} FallbackTells(t: Traced, f: Traced, whole: Traced)
    requires Wasted(t.sent) && Told(f) && whole == Traced(Attach(t.sent, f.outcome), t.sent + f.sent)
    ensures Told(whole)
  {
    AttachTells(t.sent, f.outcome, f.sent);
  }

  lemma {:induction false} FallbackIsAttached(r: Router, st: RuntimeState, budget: nat, n: nat, t: Traced)
    requires budget <= st.modelCallLimit && r.available(FLASH, n) && t == r.flash(GatewayState(st, budget, 0), n)
    requires t.outcome.Unavailable? && t.outcome.attempts == t.sent && |t.sent| < budget
    ensures
      var f := CallPlus(r, st, budget - |t.sent|, n + |t.sent|);
      CallFlash(r, st, budget, n) == Traced(Attach(t.sent, f.outcome), t.sent + f.sent)
  {
  }

  // What the outcome of a decision says about all requests, when `answered` tells whether the flash model
  // had answered: a result accounts for every one; an unavailability lists every one exactly when flash had
  // not answered; a structured-output error exactly when, besides, no request failed.
  predicate Decided(t: Traced, answered: bool) {
    && (t.outcome.Result? ==> Accounts(t.outcome.result, t.sent))
    && (t.outcome.Unavailable? ==> (t.outcome.attempts == t.sent <==> !answered))
    && (t.outcome.Structured? ==> (t.outcome.attempts == t.sent <==> Tally(t.sent).failures == 0 && !answered))
  }

  lemma {:induction false} SecondOpinionTells(flash: Traced, f: Traced)
    requires flash.outcome.Result?
    ensures Told(flash) && Told(f) ==> Decided(Joined(flash, f), true)
  {
    TallyOfConcat(flash.sent, f.sent);
    if Told(flash) && Told(f) { assert |flash.sent + f.sent| > |f.sent|; }
  }

  // Did the flash model answer, so that a later error is one of the second opinion?
  predicate FlashAnswered(r: Router, st: RuntimeState, explaining: bool, n: nat) {
    explaining && CallFlash(r, st, st.RemainingModelCalls(), n).outcome.Result?
  }

  // The whole decision, in every outcome; the requests that are missing from an error are those of the
  // flash model's answer, or the failed ones of a call that ended in a structured-output error.
  lemma {:induction false} DecideAccounts(r: Router, st: RuntimeState, explaining: bool, n: nat)
    requires Honest(r.plus) && Honest(r.flash)
    ensures Decided(RouterDecide(r, st, explaining, n), FlashAnswered(r, st, explaining, n))
  {
    if explaining {
      var flash := CallFlash(r, st, st.RemainingModelCalls(), n);
      FlashTells(r, st, st.RemainingModelCalls(), n);
      SecondCallTells(r, st, flash, n);
      ChosenAccounts(flash, SecondCall(r, st, flash, n), st.RemainingModelCalls());
    } else {
      PlusTells(r, st, st.RemainingModelCalls(), n);
    }
  }

  lemma {:induction false} SecondCallTells(r: Router, st: RuntimeState, flash: Traced, n: nat)
    requires Honest(r.plus)
    ensures Told(flash) ==> Told(SecondCall(r, st, flash, n))
  {
    var remaining := st.RemainingModelCalls();
    var second := SecondCall(r, st, flash, n);
    if AsksAgain(flash.outcome, remaining) {
      var f := CallPlus(r, st, remaining - flash.outcome.result.ModelCallCount(), n + |flash.sent|);
      PlusTells(r, st, remaining - flash.outcome.result.ModelCallCount(), n + |flash.sent|);
      assert second == f;
    } else {
      assert second == flash;
    }
  }

  lemma {:induction false} ChosenAccounts(flash: Traced, second: Traced, remaining: nat)
    ensures Told(flash) && Told(second) ==> Decided(Chosen(flash, second, remaining), flash.outcome.Result?)
  {
    if AsksAgain(flash.outcome, remaining) { SecondOpinionTells(flash, second); }
  }

  // ---- The call budget ---------------------------------------------------------------------

  // The one way a plus call exceeds its budget: two calls are left, the gateway spends both, the second
  // on a repair request, and that one fails with a retryable error.
  predicate Overspends(r: Router, st: RuntimeState, budget: nat, n: nat)
    requires budget <= st.modelCallLimit
  {
    budget == 2 && r.available(PLUS, n) &&
    var t := r.plus(GatewayState(st, 2, 0), n);
    |t.sent| == 2 && t.outcome.Unavailable? && AnyRetryable(t.outcome.attempts)
  }

  lemma {:induction false} PlusCallBudget(r: Router, st: RuntimeState, budget: nat, n: nat)
    requires Honest(r.plus) && budget <= st.modelCallLimit
    ensures
      var sent := |CallPlus(r, st, budget, n).sent|;
      sent <= budget + 1 && (sent == budget + 1 <==> Overspends(r, st, budget, n))
  {
    if r.available(PLUS, n) && budget > 0 {
      var attempts := if budget < 2 then budget else 2;
      var t := r.plus(GatewayState(st, budget, 0), n);
      assert Reports(t, budget);
      if Retries(t, attempts, 1) {
        var again := GatewayState(st, budget, |t.sent|);
        assert [] + t.outcome.attempts == t.sent;
        assert CallPlus(r, st, budget, n).sent == t.sent + r.plus(again, n + |t.sent|).sent;
        assert Reports(r.plus(again, n + |t.sent|), again.RemainingModelCalls());
      }
    }
  }

  // Where the last plus call of a decision happens: its budget and first request number.
  function LastPlusCall(r: Router, st: RuntimeState, explaining: bool, n: nat): (o: Option<(nat, nat)>)
    ensures o.Some? ==> o.value.0 <= st.modelCallLimit
  {
    var remaining := st.RemainingModelCalls();
    if !explaining then Some((remaining, n))
    else
      var t := CallFlash(r, st, remaining, n);
      if AsksAgain(t.outcome, remaining) then Some((remaining - t.outcome.result.ModelCallCount(), n + |t.sent|))
      else FallbackCall(r, st, remaining, n)
  }

  // The plus call inside a flash call, if there is one.
  function FallbackCall(r: Router, st: RuntimeState, budget: nat, n: nat): (o: Option<(nat, nat)>)
    requires budget <= st.modelCallLimit
    ensures o.Some? ==> o.value.0 <= st.modelCallLimit
  {
    if !r.available(FLASH, n) || budget == 0 then None
    else
      var t := r.flash(GatewayState(st, budget, 0), n);
      if t.outcome.Unavailable? && |t.outcome.attempts| < budget then
        Some((budget - |t.outcome.attempts|, n + |t.sent|))
      else None
  }

  lemma {:induction false} FlashCallBudget(r: Router, st: RuntimeState, budget: nat, n: nat)
    requires Honest(r.plus) && Honest(r.flash) && budget <= st.modelCallLimit
    ensures
      var sent := |CallFlash(r, st, budget, n).sent|;
      var fallback := FallbackCall(r, st, budget, n);
      && sent <= budget + 1
      && (sent == budget + 1 <==> fallback.Some? && Overspends(r, st, fallback.value.0, fallback.value.1))
  {
    if r.available(FLASH, n) && budget > 0 {
      var t := r.flash(GatewayState(st, budget, 0), n);
      assert Reports(t, budget);
      if t.outcome.Unavailable? && |t.sent| < budget {
        PlusCallBudget(r, st, budget - |t.sent|, n + |t.sent|);
      }
    }
  }

  lemma {:induction false} SecondOpinionBudget(r: Router, st: RuntimeState, flash: Traced, n: nat)
    requires Honest(r.plus) && Told(flash) && AsksAgain(flash.outcome, st.RemainingModelCalls())
    ensures
      var sent := |flash.sent| + |SecondCall(r, st, flash, n).sent|;
      var left := st.RemainingModelCalls() - flash.outcome.result.ModelCallCount();
      && sent <= st.RemainingModelCalls() + 1
      && (sent == st.RemainingModelCalls() + 1 <==> Overspends(r, st, left, n + |flash.sent|))
  {
    PlusCallBudget(r, st, st.RemainingModelCalls() - |flash.sent|, n + |flash.sent|);
  }

  // One decision sends at most one request more than remained, and that one exactly when its last
  // plus call overspends.
  lemma {:induction false} DecideCallBudget(r: Router, st: RuntimeState, explaining: bool, n: nat)
    requires Honest(r.plus) && Honest(r.flash)
    ensures
      var sent := |RouterDecide(r, st, explaining, n).sent|;
      var remaining := st.RemainingModelCalls();
      var last := LastPlusCall(r, st, explaining, n);
      && sent <= remaining + 1
      && (sent == remaining + 1 <==> last.Some? && Overspends(r, st, last.value.0, last.value.1))
  {
    var remaining := st.RemainingModelCalls();
    if !explaining {
      PlusCallBudget(r, st, remaining, n);
    } else {
      FlashCallBudget(r, st, remaining, n);
      FlashTells(r, st, remaining, n);
      var t := CallFlash(r, st, remaining, n);
      if AsksAgain(t.outcome, remaining) { SecondOpinionBudget(r, st, t, n); }
    }
  }
}
