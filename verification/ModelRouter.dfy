// app/infrastructure/adapters/model_gateway.py as it runs: the gateway and the retry loop of
// `ModelRouter._call` over a growing request log, proved equal to the functions of GatewaySpec and
// QwenSpec, and the circuit breaker.
module ModelRouting {
  import opened Wrappers
  import opened Contracts
  import opened GatewaySpec
  import opened QwenSpec

  // The connection both gateways use; it answers by the number of requests it has seen.
  class Connection {
    const network: Network
    var sent: seq<ModelAttempt>

    constructor (network: Network)
      ensures this.network == network && sent == []
    {
      this.network := network;
      sent := [];
    }

    // What a traced call does to the log.
    twostate predicate Carried(t: Traced, outcome: Outcome)
      reads this
    {
      outcome == t.outcome && sent == old(sent) + t.sent
    }

    method Request(name: string, purpose: Purpose) returns (reply: Reply, attempt: ModelAttempt)
      modifies this
      ensures reply == network(old(|sent|)) && attempt == AttemptOf(name, purpose, reply)
      ensures sent == old(sent) + [attempt]
    {
      reply := network(|sent|);
      attempt := AttemptOf(name, purpose, reply);
      sent := sent + [attempt];
    }
  }

  class QwenModelGateway {
    const connection: Connection
    const name: string

    constructor (connection: Connection, name: string)
      ensures this.connection == connection && this.name == name
    {
      this.connection, this.name := connection, name;
    }

    // One request, and at most one repair request.
    method Decide(st: RuntimeState) returns (outcome: Outcome)
      modifies connection
      ensures connection.Carried(QwenDecide(connection.network, name, st, old(|connection.sent|)), outcome)
    {
      var reply, primary := connection.Request(name, PRIMARY);
      if reply.Failure? {
        return Unavailable([primary]);
      }
      if reply.message.Parsed? {
        return Result(AnsweredAtOnce(Bound(reply.message.action, st), primary));
      }
      if st.RemainingModelCalls() <= 1 || st.RemainingRepairCalls() == 0 {
        return Structured([primary]);
      }
      var repaired, repair := connection.Request(name, REPAIR);
      if repaired.Failure? {
        return Unavailable([primary, repair]);
      }
      if repaired.message.Parsed? {
        return Result(AnsweredAfterRepair(Bound(repaired.message.action, st), primary, repair));
      }
      return Structured([primary, repair]);
    }
  }

  // The gateway interface the router is written against; `behaviour` is what its `decide` does, for the
  // Qwen gateway the function that QwenModelGateway.Decide is proved to compute.
  class ModelGateway {
    const connection: Connection
    const behaviour: Gateway

    constructor (connection: Connection, behaviour: Gateway)
      ensures this.connection == connection && this.behaviour == behaviour
    {
      this.connection, this.behaviour := connection, behaviour;
    }

    method Decide(st: RuntimeState) returns (outcome: Outcome)
      modifies connection
      ensures connection.Carried(behaviour(st, old(|connection.sent|)), outcome)
    {
      var t := behaviour(st, |connection.sent|);
      connection.sent := connection.sent + t.sent;
      outcome := t.outcome;
    }
  }

  class ModelRouter {
    const connection: Connection
    const flash: ModelGateway
    const plus: ModelGateway
    const available: (Model, nat) -> bool

    constructor (connection: Connection, flash: Gateway, plus: Gateway, available: (Model, nat) -> bool)
      ensures Valid() && Spec() == Router(flash, plus, available) && this.connection == connection
    {
      this.connection, this.available := connection, available;
      this.flash := new ModelGateway(connection, flash);
      this.plus := new ModelGateway(connection, plus);
    }

    predicate Valid() { flash.connection == connection && plus.connection == connection }

    function Spec(): Router { Router(flash.behaviour, plus.behaviour, available) }

    // `_call` for the plus model: up to two attempts, the second only after a retryable error.
    method CallPlusModel(st: RuntimeState, budget: nat) returns (outcome: Outcome)
      requires Valid() && budget <= st.modelCallLimit
      modifies connection
      ensures connection.Carried(CallPlus(Spec(), st, budget, old(|connection.sent|)), outcome)
    {
      ghost var before := connection.sent;
      if !available(PLUS, |connection.sent|) || budget == 0 {
        return Unavailable([]);
      }
      var attempts := if budget < 2 then budget else 2;
      ghost var whole := PlusAttempts(Spec(), st, budget, attempts, 1, [], |connection.sent|);
      var failed: seq<ModelAttempt> := [];
      var attemptNumber := 1;
      while true
        invariant 1 <= attemptNumber <= attempts
        invariant
          var rest := PlusAttempts(Spec(), st, budget, attempts, attemptNumber, failed, |connection.sent|);
          whole.outcome == rest.outcome && before + whole.sent == connection.sent + rest.sent
        decreases attempts - attemptNumber
      {
        ghost var sofar := connection.sent;
        var answer := plus.Decide(GatewayState(st, budget, |failed|));
        ghost var t := Spec().plus(GatewayState(st, budget, |failed|), |sofar|);
        assert answer == t.outcome && connection.sent == sofar + t.sent;
        if !answer.Unavailable? || attemptNumber >= attempts || !AnyRetryable(answer.attempts) {
          return Attach(failed, answer);
        }
        failed := failed + answer.attempts;
        attemptNumber := attemptNumber + 1;
        ghost var rest := PlusAttempts(Spec(), st, budget, attempts, attemptNumber, failed, |connection.sent|);
        assert sofar + (t.sent + rest.sent) == connection.sent + rest.sent;
      }
    }

    // `_call` for the flash model: one attempt, then the plus model with what is left of the budget.
    method CallFlashModel(st: RuntimeState, budget: nat) returns (outcome: Outcome)
      requires Valid() && budget <= st.modelCallLimit
      modifies connection
      ensures connection.Carried(CallFlash(Spec(), st, budget, old(|connection.sent|)), outcome)
    {
      if !available(FLASH, |connection.sent|) || budget == 0 {
        return Unavailable([]);
      }
      outcome := flash.Decide(GatewayState(st, budget, 0));
      ghost var t := Spec().flash(GatewayState(st, budget, 0), |old(connection.sent)|);
      assert outcome == t.outcome && connection.sent == old(connection.sent) + t.sent;
      if !outcome.Unavailable? || |outcome.attempts| >= budget {
        return;
      }
      var failed := outcome.attempts;
      var fallback := CallPlusModel(st, budget - |failed|);
      outcome := Attach(failed, fallback);
      ghost var f := CallPlus(Spec(), st, budget - |failed|, |old(connection.sent)| + |t.sent|);
      assert connection.sent == old(connection.sent) + (t.sent + f.sent);
    }

    // `decide`: the flash model first for explaining goals, and a second opinion on low confidence.
    method Decide(st: RuntimeState) returns (outcome: Outcome)
      requires Valid()
      modifies connection
      ensures connection.Carried(RouterDecide(Spec(), st, Explaining(st), old(|connection.sent|)), outcome)
    {
      var remaining := st.RemainingModelCalls();
      if !Explaining(st) {
        outcome := CallPlusModel(st, remaining);
        return;
      }
      outcome := CallFlashModel(st, remaining);
      if !AsksAgain(outcome, remaining) {
        return;
      }
      var fallback := CallPlusModel(st, remaining - outcome.result.ModelCallCount());
      outcome := SecondOpinion(outcome.result, fallback);
    }
  }

  // ---- The circuit breaker -----------------------------------------------------------------

  predicate Ordered(times: seq<int>) { forall i, j :: 0 <= i <= j < |times| ==> times[i] <= times[j] }

  // The failures that lie within the window that ends now.
  function Recent(times: seq<int>, now: int, window: nat): seq<int> {
    if times == [] then []
    else
      var earlier := Recent(times[..|times| - 1], now, window);
      if now - times[|times| - 1] <= window then earlier + [times[|times| - 1]] else earlier
  }

  // In an ordered list the recent failures are a suffix: everything from the first recent one on.
  lemma {:induction false} RecentIsASuffix(times: seq<int>, now: int, window: nat, k: nat)
    requires Ordered(times) && k <= |times|
    requires forall i :: 0 <= i < k ==> now - times[i] > window
    requires k < |times| ==> now - times[k] <= window
    ensures Recent(times, now, window) == times[k..]
  {
    if times != [] {
      var front := times[..|times| - 1];
      assert forall i, j :: 0 <= i <= j < |front| ==> times[i] <= times[j] && front[i] == times[i] && front[j] == times[j];
      if k == |times| {
        RecentIsASuffix(front, now, window, k - 1);
      } else {
        RecentIsASuffix(front, now, window, k);
        assert times[k] <= times[|times| - 1];
        assert times[k..] == front[k..] + [times[|times| - 1]];
      }
    }
  }

  // What the window has dropped at one time stays dropped at every later time.
  lemma {:induction false} RecentOfRecent(times: seq<int>, then0: int, now: int, window: nat)
    requires then0 <= now
    ensures Recent(Recent(times, then0, window), now, window) == Recent(times, now, window)
  {
    if times != [] {
      var last := times[|times| - 1];
      var earlier := Recent(times[..|times| - 1], then0, window);
      RecentOfRecent(times[..|times| - 1], then0, now, window);
      if then0 - last <= window {
        assert (earlier + [last])[..|earlier + [last]| - 1] == earlier;
      }
    }
  }

  lemma {:induction false} RecentAppend(times: seq<int>, now: int, window: nat)
    ensures Recent(times + [now], now, window) == Recent(times, now, window) + [now]
  {
    assert (times + [now])[..|times + [now]| - 1] == times;
  }

  // The two lists stand for the same recent failures from `clock` on.
  ghost predicate SameWindow(failures: seq<int>, since: seq<int>, clock: int, window: nat) {
    forall now :: now >= clock ==> Recent(failures, now, window) == Recent(since, now, window)
  }

  // Appending a failure and pruning keeps the two lists together.
  lemma {:induction false} WindowAfterFailure(kept: seq<int>, since: seq<int>, clock: int, now: int, window: nat)
    requires SameWindow(kept, since, clock, window) && clock <= now
    ensures
      var pruned := Recent(kept + [now], now, window);
      pruned == Recent(since + [now], now, window) && SameWindow(pruned, since + [now], now, window)
  {
    RecentAppend(kept, now, window);
    RecentAppend(since, now, window);
    var pruned := Recent(kept + [now], now, window);
    forall later | later >= now ensures Recent(pruned, later, window) == Recent(since + [now], later, window) {
      RecentOfRecent(since + [now], now, later, window);
    }
  }

  predicate OrderedUpTo(times: seq<int>, clock: int) {
    Ordered(times) && forall i :: 0 <= i < |times| ==> times[i] <= clock
  }

  lemma {:induction false} RecentStaysOrdered(times: seq<int>, now: int, window: nat, clock: int)
    requires OrderedUpTo(times, clock)
    ensures OrderedUpTo(Recent(times, now, window), clock)
    ensures times != [] ==>
              forall i :: 0 <= i < |Recent(times, now, window)| ==> Recent(times, now, window)[i] <= times[|times| - 1]
  {
    if times != [] {
      RecentStaysOrdered(times[..|times| - 1], now, window, times[|times| - 1]);
    }
  }

  // The loop of `failure`: stale entries leave at the front.
  method DropStale(times: seq<int>, now: int, window: nat) returns (kept: seq<int>)
    requires Ordered(times)
    ensures kept == Recent(times, now, window)
  {
    kept := times;
    ghost var k := 0;
    while kept != [] && now - kept[0] > window
      invariant k <= |times| && kept == times[k..]
      invariant forall i :: 0 <= i < k ==> now - times[i] > window
      decreases |kept|
    {
      kept := kept[1..];
      k := k + 1;
    }
    RecentIsASuffix(times, now, window, k);
  }

  // The places of the failures, among the first `k`, that are at most `window` seconds old.
  ghost function Young(times: seq<int>, now: int, window: nat, k: nat): set<nat>
    requires k <= |times|
  {
    set i: nat | i < k && now - times[i] <= window
  }

  lemma {:induction false} RecentAreYoung(times: seq<int>, now: int, window: nat)
    ensures |Recent(times, now, window)| == |Young(times, now, window, |times|)|
  {
    if times != [] {
      var before, last := times[..|times| - 1], |times| - 1;
      RecentAreYoung(before, now, window);
      assert Young(times, now, window, last) == Young(before, now, window, last);
      assert Young(times, now, window, |times|)
          == Young(times, now, window, last) + if now - times[last] <= window then {last} else {};
    }
  }

  // `failures` is the pruned window; `since` is every failure since the window was last cleared.
  class CircuitBreaker {
    const threshold: nat
    const windowSeconds: nat
    const cooldownSeconds: nat
    var failures: seq<int>
    var openedAt: Option<int>
    ghost var since: seq<int>
    ghost var clock: int

    ghost predicate Valid()
      reads this
    {
      && OrderedUpTo(failures, clock)
      && SameWindow(failures, since, clock, windowSeconds)
      && (openedAt.Some? ==> openedAt.value <= clock)
    }

    constructor (threshold: nat, windowSeconds: nat, cooldownSeconds: nat, now: int)
      ensures Valid() && since == [] && openedAt.None? && clock == now
      ensures this.threshold == threshold && this.windowSeconds == windowSeconds && this.cooldownSeconds == cooldownSeconds
    {
      this.threshold, this.windowSeconds, this.cooldownSeconds := threshold, windowSeconds, cooldownSeconds;
      failures, openedAt, since, clock := [], None, [], now;
    }

    // A call is refused exactly while the cooldown runs; the first call after it starts afresh.
    method AssertAvailable(now: int) returns (available: bool)
      requires Valid() && clock <= now
      modifies this
      ensures Valid() && clock == now
      ensures !available <==> old(openedAt.Some?) && now - old(openedAt).GetOr(0) < cooldownSeconds
      ensures available ==> openedAt.None? && since == if old(openedAt.Some?) then [] else old(since)
      ensures !available ==> openedAt == old(openedAt) && since == old(since)
    {
      clock := now;
      available := true;
      if openedAt.Some? {
        if now - openedAt.value < cooldownSeconds {
          return false;
        }
        openedAt := None;
        failures, since := [], [];
      }
    }

    method Success()
      requires Valid()
      modifies this
      ensures Valid() && since == [] && openedAt.None? && clock == old(clock)
    {
      failures, openedAt := [], None;
      since := [];
    }

    // The pruned window opens the breaker exactly when the full history since the last clear holds
    // `threshold` failures that are at most `windowSeconds` old.
    method Failure(now: int)
      requires Valid() && clock <= now
      modifies this
      ensures Valid() && clock == now && since == old(since) + [now]
      ensures openedAt == if |Young(since, now, windowSeconds, |since|)| >= threshold then Some(now) else old(openedAt)
    {
      WindowAfterFailure(failures, since, clock, now, windowSeconds);
      var all := failures + [now];
      assert OrderedUpTo(all, now);
      RecentStaysOrdered(all, now, windowSeconds, now);
      failures := DropStale(all, now, windowSeconds);
      clock, since := now, since + [now];
      RecentAreYoung(since, now, windowSeconds);
      if |failures| >= threshold {
        openedAt := Some(now);
      }
    }
  }
}
