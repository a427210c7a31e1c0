// The loops of Harness.dfy inside the system of Protocol.dfy: when the interference that a program meets
// between its transactions is what other events of the system do, the program's path is a run of the system,
// and the theorems about reachable systems hold of its result.
module HarnessRuns {
  import opened Wrappers
  import opened Contracts
  import opened LeaseSpec
  import opened StoreSpec
  import opened BudgetSpec
  import opened RunnerSpec
  import opened Protocol
  import opened ProtocolInvariant
  import opened ProtocolTheorems
  import opened Harness

  // What others do while the worker is between two transactions: anything but its own steps and its crash.
  // Renewals of its lease are others' events too: they come from the heartbeat.
  predicate Others(token: nat, events: seq<Event>) {
    forall i :: 0 <= i < |events| ==> !OwnEvent(token, events[i])
  }

  predicate OwnEvent(token: nat, e: Event) { (e.Step? && e.token == token) || (e.Crash? && e.token == token) }

  function EventOf(token: nat, h: Hop): Event { Step(token, h.now, h.timeUp, h.choice) }

  // The run of the whole: before each hop of the program, what the others did.
  function Weave(token: nat, hops: seq<Hop>, gaps: seq<seq<Event>>): seq<Event>
    requires |gaps| == |hops|
  {
    if hops == [] then []
    else
      var n := |hops| - 1;
      Weave(token, hops[..n], gaps[..n]) + (gaps[n] + [EventOf(token, hops[n])])
  }

  // Each transaction of the program finds the database as the others have left it.
  ghost predicate Meets(cfg: Config, token: nat, s: System, hops: seq<Hop>, gaps: seq<seq<Event>>)
    requires |gaps| == |hops|
  {
    hops == [] ||
    var n := |hops| - 1;
    && Meets(cfg, token, s, hops[..n], gaps[..n]) && Others(token, gaps[n])
    && RunAll(cfg, RunAll(cfg, s, Weave(token, hops[..n], gaps[..n])), gaps[n]).db == hops[n].before
  }

  lemma {:induction false} RunAllJoin(cfg: Config, s: System, a: seq<Event>, b: seq<Event>)
    ensures RunAll(cfg, s, a + b) == RunAll(cfg, RunAll(cfg, s, a), b)
    decreases |b|
  {
    if b == [] {
      assert a + b == a;
    } else {
      assert (a + b)[..|a + b| - 1] == a + b[..|b| - 1];
      RunAllJoin(cfg, s, a, b[..|b| - 1]);
    }
  }

  // The worker of an issued token, where it stands.
  ghost predicate Stands(s: System, token: nat, w: Worker) {
    token <= s.db.run.token && token in s.workers && s.workers[token] == w
  }

  lemma {:induction false} OtherEventLeaves(cfg: Config, s: System, e: Event, token: nat, w: Worker)
    requires Stands(s, token, w) && !OwnEvent(token, e)
    ensures Stands(Advance(cfg, s, e), token, w)
  {
    if e.Step? && e.token in s.workers {
      WorkFrame(cfg, e.token, e.now, e.timeUp, s.db, s.workers[e.token], e.choice);
    }
  }

  lemma {:induction false} OthersLeave(cfg: Config, s: System, events: seq<Event>, token: nat, w: Worker)
    requires Stands(s, token, w) && Others(token, events)
    ensures Stands(RunAll(cfg, s, events), token, w)
    decreases |events|
  {
    if events != [] {
      OthersLeave(cfg, s, events[..|events| - 1], token, w);
      OtherEventLeaves(cfg, RunAll(cfg, s, events[..|events| - 1]), events[|events| - 1], token, w);
    }
  }

  lemma {:induction false} HopIsAStep(cfg: Config, s: System, token: nat, h: Hop)
    requires Stands(s, token, h.from) && s.db == h.before && GoodHop(cfg, token, h)
    ensures Stands(Advance(cfg, s, EventOf(token, h)), token, h.to)
    ensures Advance(cfg, s, EventOf(token, h)).db == h.after
  {
    WorkFrame(cfg, token, h.now, h.timeUp, h.before, h.from, h.choice);
  }

  // A path of the program is a run of the system that takes its worker from the path's start to its end.
  lemma {:induction false} LoopIsARun(cfg: Config, token: nat, s: System, first: Worker, hops: seq<Hop>, last: Worker,
      gaps: seq<seq<Event>>)
    requires Path(cfg, token, first, hops, last) && Stands(s, token, first)
    requires |gaps| == |hops| && Meets(cfg, token, s, hops, gaps)
    ensures Stands(RunAll(cfg, s, Weave(token, hops, gaps)), token, last)
    ensures hops != [] ==> RunAll(cfg, s, Weave(token, hops, gaps)).db == hops[|hops| - 1].after
    decreases |hops|
  {
    if hops != [] {
      var n := |hops| - 1;
      var h := hops[n];
      LoopIsARun(cfg, token, s, first, hops[..n], h.from, gaps[..n]);
      var before := RunAll(cfg, s, Weave(token, hops[..n], gaps[..n]));
      OthersLeave(cfg, before, gaps[n], token, h.from);
      var met := RunAll(cfg, before, gaps[n]);
      HopIsAStep(cfg, met, token, h);
      RunAllJoin(cfg, s, Weave(token, hops[..n], gaps[..n]), gaps[n] + [EventOf(token, h)]);
      RunAllJoin(cfg, before, gaps[n], [EventOf(token, h)]);
      assert RunAll(cfg, met, [EventOf(token, h)]) == Advance(cfg, met, EventOf(token, h)) by {
        assert [EventOf(token, h)][..0] == [];
      }
    }
  }

  lemma {:induction false} RunsStayReachable(cfg: Config, s: System, events: seq<Event>)
    requires Reachable(cfg, s)
    ensures Reachable(cfg, RunAll(cfg, s, events))
  {
    var s0, earlier :| Initial(s0) && s == RunAll(cfg, s0, earlier);
    RunAllJoin(cfg, s0, earlier, events);
  }

  // The acquisition puts the worker at its load step.
  lemma {:induction false} AcquisitionStarts(cfg: Config, s: System, owner: string, start: int)
    requires Reachable(cfg, s) && AcquireTxn(s.db.run, owner, start, cfg.leaseSeconds).Granted?
    ensures
      var token := s.db.run.token + 1;
      var s1 := Advance(cfg, s, AcquireLease(owner, start));
      Reachable(cfg, s1) && Stands(s1, token, Worker(owner, Load, FreshState(cfg, token, start)))
  {
    RunsStayReachable(cfg, s, [AcquireLease(owner, start)]);
    assert [AcquireLease(owner, start)][..0] == [];
    assert RunAll(cfg, s, [AcquireLease(owner, start)]) == Advance(cfg, s, AcquireLease(owner, start));
  }

  // A job execution in a reachable system, from the acquisition to the end of its run: it stays reachable,
  // and a completion it returns was saved with the same decision and is within every limit.
  lemma {:induction false} JobObeysTheProtocol(cfg: Config, s: System, owner: string, start: int, hops: seq<Hop>,
      w: Worker, gaps: seq<seq<Event>>)
    requires Registered(cfg) && Reachable(cfg, s) && AcquireTxn(s.db.run, owner, start, cfg.leaseSeconds).Granted?
    requires
      var token := s.db.run.token + 1;
      && Path(cfg, token, Worker(owner, Load, FreshState(cfg, token, start)), hops, w)
      && |gaps| == |hops| && Meets(cfg, token, Advance(cfg, s, AcquireLease(owner, start)), hops, gaps)
    ensures
      var token := s.db.run.token + 1;
      var end := RunAll(cfg, Advance(cfg, s, AcquireLease(owner, start)), Weave(token, hops, gaps));
      && Reachable(cfg, end) && Stands(end, token, w) && OnePerStep(cfg, end.db)
      && (WritesAreTerminal(cfg) ==> AtMostOne(end.db.proposals))
      && (ReportsCompletion(w) ==>
            && IsCompleted(end.db.lastSaved) && end.db.lastSaved.value.finalAction == Some(w.pc.ending.action)
            && w.st.loopCount <= cfg.budget.maxSteps && w.st.toolCalls <= cfg.budget.maxToolCalls
            && w.st.modelCalls <= cfg.budget.maxModelCalls && w.st.repairCalls <= cfg.budget.maxRepairCalls
            && TokensWithin(cfg.budget, w.st))
  {
    var token := s.db.run.token + 1;
    var s1 := Advance(cfg, s, AcquireLease(owner, start));
    AcquisitionStarts(cfg, s, owner, start);
    LoopIsARun(cfg, token, s1, Worker(owner, Load, FreshState(cfg, token, start)), hops, w, gaps);
    RunsStayReachable(cfg, s1, Weave(token, hops, gaps));
    var end := RunAll(cfg, s1, Weave(token, hops, gaps));
    AtMostOneProposal(cfg, end);
    if ReportsCompletion(w) { CompletionIsSaved(cfg, end, token); }
  }

  lemma {:induction false} CompletionIsSaved(cfg: Config, s: System, token: nat)
    requires Registered(cfg) && Reachable(cfg, s) && token in s.workers && ReportsCompletion(s.workers[token])
    ensures
      var w := s.workers[token];
      && IsCompleted(s.db.lastSaved) && s.db.lastSaved.value.finalAction == Some(w.pc.ending.action)
      && w.st.loopCount <= cfg.budget.maxSteps && w.st.toolCalls <= cfg.budget.maxToolCalls
      && w.st.modelCalls <= cfg.budget.maxModelCalls && w.st.repairCalls <= cfg.budget.maxRepairCalls
      && TokensWithin(cfg.budget, w.st)
  {
    CompletedRunsAreWithinBudget(cfg, s, token);
    ReachableHasInv(cfg, s);
    assert ReportOK(s.db, s.workers[token]);
  }
}
