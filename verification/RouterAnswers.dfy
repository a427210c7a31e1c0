// app/infrastructure/adapters/model_gateway.py, the router over two Qwen gateways: whose answer is returned,
// and which model is asked when.
module RouterAnswers {
  import opened Wrappers
  import opened Contracts
  import opened GatewaySpec
  import opened QwenSpec

  // A result is the answer to the last request that was sent, under that request's model name.
  predicate FromLast(network: Network, st: RuntimeState, t: Traced, n: nat) {
    t.outcome.Result? ==>
      t.sent != [] &&
      var last := network(n + |t.sent| - 1);
      && last.Answer? && last.message.Parsed? && t.outcome.result.action == Bound(last.message.action, st)
      && t.outcome.result.modelName == t.sent[|t.sent| - 1].modelName
  }

  predicate AllNamed(sent: seq<ModelAttempt>,
      name: string) { forall i :: 0 <= i < |sent| ==> sent[i].modelName == name }

  // First requests to the one model, then to the other.
  predicate FlashThenPlus(sent: seq<ModelAttempt>) {
    && (forall i :: 0 <= i < |sent| ==> sent[i].modelName == "flash" || sent[i].modelName == "plus")
    && (forall i, j :: 0 <= i < j < |sent| && sent[i].modelName == "plus" ==> sent[j].modelName == "plus")
  }

  lemma {:induction false} QwenAnswers(network: Network, name: string, st: RuntimeState, n: nat)
    ensures FromLast(network, st, QwenDecide(network, name, st, n), n) && AllNamed(QwenDecide(network, name, st, n).sent, name)
  {
  }

  // The copy of the state that a gateway sees binds the same keys.
  lemma {:induction false} AnsweredForCopy(network: Network, st: RuntimeState, asked: RuntimeState,
      failed: seq<ModelAttempt>, t: Traced, n: nat)
    requires asked.identity == st.identity && asked.loopCount == st.loopCount
    ensures FromLast(network, asked, t, n) ==> FromLast(network, st, Traced(Attach(failed, t.outcome), t.sent), n)
  {
  }

  // A later call's answer, after earlier requests.
  lemma {:induction false} FromLastLater(network: Network, st: RuntimeState, earlier: seq<ModelAttempt>, f: Traced,
      t: Traced, n: nat)
    requires t.sent == earlier + f.sent
    requires t.outcome.Result? ==> f.outcome.Result? && t.outcome.result.action == f.outcome.result.action
                                   && t.outcome.result.modelName == f.outcome.result.modelName
    ensures FromLast(network, st, f, n + |earlier|) ==> FromLast(network, st, t, n)
  {
  }

  lemma {:induction false} NamedTogether(a: seq<ModelAttempt>, b: seq<ModelAttempt>, name: string)
    ensures AllNamed(a, name) && AllNamed(b, name) ==> AllNamed(a + b, name)
  {
  }

  lemma {:induction false} PlusAttemptsAnswer(network: Network, available: (Model, nat) -> bool, st: RuntimeState,
      budget: nat, attempts: nat, k: nat, failed: seq<ModelAttempt>, n: nat) returns (whole: Traced)
    requires budget <= st.modelCallLimit && 1 <= k <= attempts
    ensures whole == PlusAttempts(QwenRouter(network, available), st, budget, attempts, k, failed, n)
    ensures FromLast(network, st, whole, n) && AllNamed(whole.sent, "plus")
    decreases attempts - k
  {
    var asked := GatewayState(st, budget, |failed|);
    var t := QwenDecide(network, "plus", asked, n);
    QwenAnswers(network, "plus", asked, n);
    if Retries(t, attempts, k) {
      var rest := PlusAttemptsAnswer(network, available, st, budget, attempts, k + 1, failed + t.outcome.attempts, n + |t.sent|);
      whole := Traced(rest.outcome, t.sent + rest.sent);
      FromLastLater(network, st, t.sent, rest, whole, n);
      NamedTogether(t.sent, rest.sent, "plus");
    } else {
      whole := Traced(Attach(failed, t.outcome), t.sent);
      AnsweredForCopy(network, st, asked, failed, t, n);
    }
    assert QwenRouter(network, available).plus(asked, n) == t;
  }

  lemma {:induction false} PlusAnswers(network: Network,
      available: (Model, nat) -> bool, st: RuntimeState, budget: nat, n: nat)
      returns (t: Traced)
    requires budget <= st.modelCallLimit
    ensures t == CallPlus(QwenRouter(network, available), st, budget, n)
    ensures FromLast(network, st, t, n) && AllNamed(t.sent, "plus")
  {
    if available(PLUS, n) && budget > 0 {
      t := PlusAttemptsAnswer(network, available, st, budget, if budget < 2 then budget else 2, 1, [], n);
    } else {
      t := Traced(Unavailable([]), []);
    }
  }

  lemma {:induction false} FlashAlone(sent: seq<ModelAttempt>)
    ensures AllNamed(sent, "flash") ==> FlashThenPlus(sent)
  {
    assert "flash" != "plus" by { assert |"flash"| != |"plus"|; }
  }

  lemma {:induction false} MoreFromPlus(a: seq<ModelAttempt>, b: seq<ModelAttempt>)
    ensures FlashThenPlus(a) && AllNamed(b, "plus") ==> FlashThenPlus(a + b)
  {
  }

  lemma {:induction false} FlashAnswers(network: Network,
      available: (Model, nat) -> bool, st: RuntimeState, budget: nat, n: nat)
      returns (whole: Traced)
    requires budget <= st.modelCallLimit
    ensures whole == CallFlash(QwenRouter(network, available), st, budget, n)
    ensures FromLast(network, st, whole, n) && FlashThenPlus(whole.sent)
  {
    if !available(FLASH, n) || budget == 0 {
      whole := Traced(Unavailable([]), []);
    } else {
      var asked := GatewayState(st, budget, 0);
      var t := QwenDecide(network, "flash", asked, n);
      QwenAnswers(network, "flash", asked, n);
      assert QwenRouter(network, available).flash(asked, n) == t;
      if !t.outcome.Unavailable? || |t.outcome.attempts| >= budget {
        whole := t;
        AnsweredForCopy(network, st, asked, [], t, n);
        FlashAlone(t.sent);
      } else {
        var f := PlusAnswers(network, available, st, budget - |t.outcome.attempts|, n + |t.sent|);
        whole := Traced(Attach(t.outcome.attempts, f.outcome), t.sent + f.sent);
        FromLastLater(network, st, t.sent, f, whole, n);
        FlashAlone(t.sent);
        MoreFromPlus(t.sent, f.sent);
      }
    }
  }

  // The answer that `decide` returns is the one to its last request, through retry, repair, fallback and second
  // opinion; the flash model is asked first, and only for an explaining goal.
  lemma {:induction false} LastAnswerIsReturned(network: Network,
      available: (Model, nat) -> bool, st: RuntimeState, explaining: bool, n: nat)
    ensures
      var t := RouterDecide(QwenRouter(network, available), st, explaining, n);
      && FromLast(network, st, t, n)
      && if explaining then FlashThenPlus(t.sent) else AllNamed(t.sent, "plus")
  {
    if explaining {
      var t := OpinionAnswers(network, available, st, n);
    } else {
      var t := PlusAnswers(network, available, st, st.RemainingModelCalls(), n);
    }
  }

  lemma {:induction false} OpinionAnswers(network: Network, available: (Model, nat) -> bool, st: RuntimeState, n: nat)
      returns (whole: Traced)
    ensures whole == RouterDecide(QwenRouter(network, available), st, true, n)
    ensures FromLast(network, st, whole, n) && FlashThenPlus(whole.sent)
  {
    var remaining := st.RemainingModelCalls();
    var flash := FlashAnswers(network, available, st, remaining, n);
    if AsksAgain(flash.outcome, remaining) {
      var f := PlusAnswers(network, available, st, remaining - flash.outcome.result.ModelCallCount(), n + |flash.sent|);
      whole := Joined(flash, f);
      FromLastLater(network, st, flash.sent, f, whole, n);
      MoreFromPlus(flash.sent, f.sent);
    } else {
      whole := flash;
    }
  }

  // ---- When another request is sent --------------------------------------------------------

  // A time limit, a lost connection, too many requests or an error of the server.
  predicate Passing(code: ModelErrorCode) {
    code.MODEL_TIMEOUT? || code.MODEL_NETWORK_ERROR? || (code.MODEL_HTTP? && (code.status == 429 || 500 <= code.status < 600))
  }

  // With two calls left, a failed first request to the plus model is followed by a second one exactly when its
  // error may pass.
  lemma {:induction false} RetriedIffPassing(network: Network,
      available: (Model, nat) -> bool, st: RuntimeState, budget: nat, n: nat)
    requires 2 <= budget <= st.modelCallLimit && available(PLUS, n) && network(n).Failure?
    ensures |CallPlus(QwenRouter(network, available), st, budget, n).sent| >= 2 <==> Passing(network(n).code)
  {
    var r := QwenRouter(network, available);
    var t := r.plus(GatewayState(st, budget, 0), n);
    assert t.sent == [AttemptOf("plus", PRIMARY, network(n))] && t.outcome == Unavailable(t.sent);
    assert AnyRetryableOfFirst(t.sent, 1) == (RetryableModelError(t.sent[0].error) || AnyRetryableOfFirst(t.sent, 0));
    assert CallPlus(r, st, budget, n) == PlusAttempts(r, st, budget, 2, 1, [], n);
    if Passing(network(n).code) {
      var again := r.plus(GatewayState(st, budget, 1), n + 1);
      assert [] + t.outcome.attempts == t.sent;
      assert again.sent != [];
    }
  }

  // Explanations and summaries go to the flash model, everything else to the plus model.  The plus model is asked
  // after a readable answer exactly when it was the flash model's, with a confidence below three quarters, and a
  // call is left; otherwise the answer is returned as it is.
  lemma {:induction false} SecondOpinionIffUnsure(network: Network,
      available: (Model, nat) -> bool, st: RuntimeState, n: nat)
    requires st.RemainingModelCalls() > 0 && available(FLASH, n) && available(PLUS, n) && available(PLUS, n + 1)
    requires network(n).Answer? && network(n).message.Parsed?
    ensures
      var t := RouterDecide(QwenRouter(network, available), st, Explaining(st), n);
      var answer := network(n).message.action;
      var simple := st.identity.goal == "EXPLAIN" || st.identity.goal == "SUMMARIZE";
      && t.sent != [] && t.sent[0].modelName == (if simple then "flash" else "plus")
      && (|t.sent| > 1 <==> simple && answer.confidence < 0.75 && st.RemainingModelCalls() > 1)
      && (|t.sent| == 1 ==> t.outcome.Result? && t.outcome.result.action == Bound(answer, st))
  {
    var r := QwenRouter(network, available);
    var remaining := st.RemainingModelCalls();
    if Explaining(st) {
      FlashFirst(network, available, st, n);
    } else {
      var plus := r.plus(GatewayState(st, remaining, 0), n);
      assert plus.sent == [AttemptOf("plus", PRIMARY, network(n))] && plus.outcome.Result?;
      assert CallPlus(r, st, remaining, n) == plus;
    }
  }

  lemma {:induction false} FlashFirst(network: Network, available: (Model, nat) -> bool, st: RuntimeState, n: nat)
    requires st.RemainingModelCalls() > 0 && available(FLASH, n) && available(PLUS, n + 1)
    requires network(n).Answer? && network(n).message.Parsed?
    ensures
      var t := RouterDecide(QwenRouter(network, available), st, true, n);
      var answer := network(n).message.action;
      && t.sent != [] && t.sent[0].modelName == "flash"
      && (|t.sent| > 1 <==> answer.confidence < 0.75 && st.RemainingModelCalls() > 1)
      && (|t.sent| == 1 ==> t.outcome.Result? && t.outcome.result.action == Bound(answer, st))
  {
    var r := QwenRouter(network, available);
    var remaining := st.RemainingModelCalls();
    var flash := r.flash(GatewayState(st, remaining, 0), n);
    assert flash.sent == [AttemptOf("flash", PRIMARY, network(n))] && flash.outcome.Result?;
    assert CallFlash(r, st, remaining, n) == flash;
    if AsksAgain(flash.outcome, remaining) {
      PlusAsks(network, available, st, remaining - 1, n + 1);
    }
  }

  lemma {:induction false} PlusAsks(network: Network,
      available: (Model, nat) -> bool, st: RuntimeState, budget: nat, n: nat)
    requires 0 < budget <= st.modelCallLimit && available(PLUS, n)
    ensures CallPlus(QwenRouter(network, available), st, budget, n).sent != []
  {
    var r := QwenRouter(network, available);
    var t := r.plus(GatewayState(st, budget, 0), n);
    assert t.sent != [];
  }

  // When the flash model's request fails, whatever the error, the plus model is asked if a call is left.
  lemma {:induction false} FallbackIfCallLeft(network: Network,
      available: (Model, nat) -> bool, st: RuntimeState, budget: nat, n: nat)
    requires 0 < budget <= st.modelCallLimit && available(FLASH, n) && available(PLUS, n + 1) && network(n).Failure?
    ensures |CallFlash(QwenRouter(network, available), st, budget, n).sent| > 1 <==> budget > 1
  {
    var r := QwenRouter(network, available);
    var t := r.flash(GatewayState(st, budget, 0), n);
    assert t.sent == [AttemptOf("flash", PRIMARY, network(n))] && t.outcome == Unavailable(t.sent);
    if budget > 1 { PlusAsks(network, available, st, budget - 1, n + 1); }
  }
}
