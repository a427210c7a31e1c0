// What happens to a job over time (app/workers/tasks.py), said of the clocks and the events alone.
module JobLaws {
  import opened Wrappers
  import opened JobSpec
  import opened JobWorkers

  // What a retry may not meet before its time: scheduling whose clocks all read less than `t`.
  predicate SchedulingBefore(events: seq<Event>, t: int) {
    forall i :: 0 <= i < |events| ==>
      match events[i]
      case EDispatch(now) => now < t
      case EDeliver(now) => now < t
      case EReconcile(now, _, _) => now < t
      case _ => false
  }

  lemma {:induction false} NothingHappensBefore(h: History, events: seq<Event>, t: int)
    requires h.job.status == RETRY_WAIT && h.job.availableAt == t && h.job.nextRetryAt == Some(t)
    requires SchedulingBefore(events, t)
    ensures Run(h, events) == h
  {
    if events != [] {
      var front := events[..|events| - 1];
      assert forall i :: 0 <= i < |front| ==> front[i] == events[i];
      NothingHappensBefore(h, front, t);
    }
  }

  // A transient failure with attempts left is retried, not before its delay has passed and then at once:
  // until `now + delay` no dispatch, delivery or reconciliation moves the job, and from then on the next
  // dispatch sends it and the next delivery starts its next attempt.
  lemma {:induction false} RetriedAfterTheDelay(h: History, now: int, delay: nat, events: seq<Event>, later: int)
    requires h.job.attemptCount < h.job.maxAttempts && SchedulingBefore(events, now + delay) && now + delay <= later
    ensures
      var failed := Step(h, EFail(true, now, delay));
      && Run(failed, events) == failed && failed.enqueued == h.enqueued && failed.claims == h.claims
      && Step(failed, EDispatch(later)).enqueued == h.enqueued + [h.job.attemptCount + 1]
      && Step(failed, EDeliver(later)).claims == h.claims + 1
      && Step(failed, EDeliver(later)).job.status == RUNNING
  {
    NothingHappensBefore(Step(h, EFail(true, now, delay)), events, now + delay);
  }

  // An attempt that started at `started` is taken back by a reconciliation exactly when it has run for more than
  // `seconds` and, for an agent job, its run is not leased; for any other job, also for eleven minutes.  It is
  // then due again at once, or dead if it was the last one allowed.
  lemma {:induction false} TakenBackIffSlow(h: History, started: int, now: int, seconds: nat, lease: Option<int>)
    requires Waiting(h.job) && Claims(h.job, started)
    ensures
      var running := Step(h, EDeliver(started));
      var after := Step(running, EReconcile(now, seconds, lease)).job;
      && (after.status != RUNNING <==>
            && now - started > seconds
            && if h.job.agent then lease.None? || lease.value <= now else now - started >= 660)
      && (after.status == RUNNING ==> after == running.job)
      && (after.status != RUNNING && h.job.attemptCount + 1 < h.job.maxAttempts ==> Dispatchable(after, now) && Claims(after, now))
      && (after.status != RUNNING && h.job.attemptCount + 1 >= h.job.maxAttempts ==> after.status == DEAD_LETTER)
  {
  }

  // ---- Endings -----------------------------------------------------------------------------

  // What an event decides about the proposal of a job on which `claims` of `allowed` attempts were made: applied
  // by a success; failed by a failure that is not retried, and by a reconciliation that finds the last attempt
  // stale.
  function Decides(h: History, e: Event): Option<bool> {
    match e
    case EFinish(outcome) => if outcome == Done then Some(true) else None
    case EFail(transient, _, _) => if transient && h.claims < h.job.maxAttempts then None else Some(false)
    case EReconcile(now, seconds, lease) =>
      if Stale(h.job, now, seconds, lease) && h.claims >= h.job.maxAttempts then Some(false) else None
    case _ => None
  }

  function FirstDecision(h: History, events: seq<Event>): Option<bool> {
    if events == [] then None
    else
      var front := events[..|events| - 1];
      if FirstDecision(h, front).Some? then FirstDecision(h, front) else Decides(Run(h, front), events[|events| - 1])
  }

  // The first event that decides settles an approved proposal, whatever is reported afterwards; until then it is
  // approved, or being applied once an attempt was started.
  lemma {:induction false} FirstDecisionSettles(h: History, events: seq<Event>)
    requires Fresh(h) && PossibleRun(h, events) && h.job.proposal == Some(APPROVED)
    ensures
      var after := Run(h, events);
      after.job.proposal ==
        Some(match FirstDecision(h, events)
             case Some(applied) => if applied then APPLIED else APPLY_FAILED
             case None => if after.claims == 0 then APPROVED else APPLYING)
  {
    if events != [] {
      FirstDecisionSettles(h, events[..|events| - 1]);
      RunKeepsInv(h, events[..|events| - 1]);
    }
  }

  // A job is dead only when every attempt was made, and has failed only by a report that was not transient.
  lemma {:induction false} DeadWhenUsedUp(h: History, events: seq<Event>)
    requires Fresh(h) && PossibleRun(h, events)
    ensures Run(h, events).job.status == DEAD_LETTER ==> Run(h, events).claims == h.job.maxAttempts
    ensures Run(h, events).job.status == FAILED ==>
              exists i :: 0 <= i < |events| && events[i].EFail? && !events[i].transient
    ensures Run(h, events).job.status == SUCCEEDED ==> exists i :: 0 <= i < |events| && events[i] == EFinish(Done)
  {
    if events != [] {
      var front, last := events[..|events| - 1], events[|events| - 1];
      assert forall i :: 0 <= i < |front| ==> front[i] == events[i];
      DeadWhenUsedUp(h, front);
      RunKeepsInv(h, front);
      if last == EFinish(Done) { assert events[|front|] == EFinish(Done); }
      if last.EFail? && !last.transient { assert events[|front|].EFail?; }
    }
  }

  // ---- The dispatcher ----------------------------------------------------------------------

  // How many of the first `k` rows are waiting, available and not dispatched.
  function DueRows(rows: seq<Job>, now: int, k: nat): nat
    requires k <= |rows|
  {
    if k == 0 then 0
    else
      var job := rows[k - 1];
      DueRows(rows, now, k - 1)
      + if (job.status == QUEUED || job.status == RETRY_WAIT) && job.availableAt <= now && job.dispatchedAt == None then 1 else 0
  }

  // The dispatcher sends exactly the first hundred of them, under their next attempt's number, stamps these with
  // its clock, and leaves every other row as it was.
  lemma {:induction false} DispatchesTheFirst(rows: seq<Job>, now: int, limit: nat, k: nat, i: nat)
    requires i < k <= |rows|
    ensures
      var (done, sent) := JobTable.DispatchFirst(rows, now, limit, k);
      var picked := DueRows(rows, now, i + 1) > DueRows(rows, now, i) && DueRows(rows, now, i) < limit;
      && |done| == k && |sent| == (if DueRows(rows, now, k) < limit then DueRows(rows, now, k) else limit)
      && done[i] == (if picked then rows[i].(dispatchedAt := Some(now)) else rows[i])
      && (picked <==> (i, rows[i].attemptCount + 1) in sent)
  {
    SentUpTo(rows, now, limit, k - 1);
    if i < k - 1 {
      DispatchesTheFirst(rows, now, limit, k - 1, i);
    }
  }

  lemma {:induction false} SentUpTo(rows: seq<Job>, now: int, limit: nat, k: nat)
    requires k <= |rows|
    ensures
      var (done, sent) := JobTable.DispatchFirst(rows, now, limit, k);
      && |done| == k && |sent| == (if DueRows(rows, now, k) < limit then DueRows(rows, now, k) else limit)
      && forall s :: s in sent ==> s.0 < k
  {
    if k > 0 { SentUpTo(rows, now, limit, k - 1); }
  }
}
