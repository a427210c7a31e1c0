// app/workers/tasks.py and app/workers/dispatcher.py: the life of one background job and of the proposal
// it applies.  Every database transaction is one event; deliveries may arrive late, twice or never, and a
// worker may report a failure long after the job went on without it.
module JobSpec {
  import opened Wrappers

  datatype JobStatus = QUEUED | RUNNING | RETRY_WAIT | SUCCEEDED | FAILED | DEAD_LETTER | CANCELLED | WAITING_FOR_REVIEW

  datatype ProposalStatus = APPROVED | APPLYING | APPLIED | APPLY_FAILED | Undecided

  datatype Job = Job(
    agent: bool,
    status: JobStatus,
    attemptCount: nat,
    maxAttempts: nat,
    availableAt: int,
    nextRetryAt: Option<int>,
    startedAt: Option<int>,
    dispatchedAt: Option<int>,
    proposal: Option<ProposalStatus>)

  predicate Waiting(job: Job) { job.status == QUEUED || job.status == RETRY_WAIT }

  predicate Terminal(s: JobStatus) { s in {SUCCEEDED, FAILED, DEAD_LETTER, CANCELLED, WAITING_FOR_REVIEW} }

  function MarkApplying(p: Option<ProposalStatus>): Option<ProposalStatus> { if p == Some(APPROVED) then Some(APPLYING) else p }

  function MarkApplied(p: Option<ProposalStatus>): Option<ProposalStatus> { if p == Some(APPLYING) then Some(APPLIED) else p }

  function MarkFailed(p: Option<ProposalStatus>): Option<ProposalStatus> {
    if p == Some(APPROVED) || p == Some(APPLYING) then Some(APPLY_FAILED) else p
  }

  // ---- The transactions --------------------------------------------------------------------

  predicate Dispatchable(job: Job, now: int) { Waiting(job) && job.availableAt <= now && job.dispatchedAt.None? }

  function Dispatch(job: Job, now: int): Job { if Dispatchable(job, now) then job.(dispatchedAt := Some(now)) else job }

  // Does the first transaction of `execute_job` claim the job?
  predicate Claims(job: Job, now: int) {
    Waiting(job) && !(job.status == RETRY_WAIT && job.nextRetryAt.Some? && job.nextRetryAt.value > now)
  }

  function Claim(job: Job, now: int): Job {
    if !Claims(job, now) then job
    else job.(status := RUNNING, startedAt := Some(now), attemptCount := job.attemptCount + 1, nextRetryAt := None,
              proposal := MarkApplying(job.proposal))
  }

  datatype Outcome = Done | DoneCancelled | NeedsReview

  // The transaction of `_dispatch`, for a worker that saw the job running.
  function Finish(job: Job, outcome: Outcome): Job {
    match outcome
    case Done => job.(status := SUCCEEDED, proposal := MarkApplied(job.proposal))
    case DoneCancelled => job.(status := CANCELLED)
    case NeedsReview => job.(status := WAITING_FOR_REVIEW)
  }

  // `_handle_failure` does not look at the status.
  function HandleFailure(job: Job, transient: bool, now: int, delay: nat): Job {
    if transient && job.attemptCount < job.maxAttempts then
      job.(status := RETRY_WAIT, nextRetryAt := Some(now + delay), availableAt := now + delay, dispatchedAt := None)
    else if transient then job.(status := DEAD_LETTER, proposal := MarkFailed(job.proposal))
    else job.(status := FAILED, proposal := MarkFailed(job.proposal))
  }

  const SLOW_JOB_SECONDS := 660

  // A running job counts as stale after `seconds`; an agent job not while its run is leased, any other job
  // not before eleven minutes.
  predicate Stale(job: Job, now: int, seconds: nat, leaseExpiresAt: Option<int>) {
    && job.status == RUNNING && job.startedAt.Some? && job.startedAt.value < now - seconds
    && if job.agent then !(leaseExpiresAt.Some? && leaseExpiresAt.value > now)
       else job.startedAt.value <= now - if seconds > SLOW_JOB_SECONDS then seconds else SLOW_JOB_SECONDS
  }

  function Reconcile(job: Job, now: int, seconds: nat, leaseExpiresAt: Option<int>): Job {
    if !Stale(job, now, seconds, leaseExpiresAt) then job
    else if job.attemptCount >= job.maxAttempts then job.(status := DEAD_LETTER, proposal := MarkFailed(job.proposal))
    else job.(status := RETRY_WAIT, nextRetryAt := Some(now), availableAt := now, dispatchedAt := None)
  }

  // ---- Runs --------------------------------------------------------------------------------

  datatype Event =
    | EDispatch(now: int)
    | EDeliver(now: int)
    | EFinish(outcome: Outcome)
    | EFail(transient: bool, now: int, delay: nat)
    | ECancel
    | EReconcile(now: int, seconds: nat, leaseExpiresAt: Option<int>)

  // A job with what happened to it: how often it was claimed and which deliveries were enqueued.
  datatype History = History(job: Job, claims: nat, enqueued: seq<nat>)

  function Step(h: History, e: Event): History {
    match e
    case EDispatch(now) =>
      History(Dispatch(h.job, now), h.claims,
              if Dispatchable(h.job, now) then h.enqueued + [h.job.attemptCount + 1] else h.enqueued)
    case EDeliver(now) => History(Claim(h.job, now), if Claims(h.job, now) then h.claims + 1 else h.claims, h.enqueued)
    case EFinish(outcome) => h.(job := Finish(h.job, outcome))
    case EFail(transient, now, delay) => h.(job := HandleFailure(h.job, transient, now, delay))
    case ECancel => h.(job := h.job.(status := CANCELLED))
    case EReconcile(now, seconds, lease) => h.(job := Reconcile(h.job, now, seconds, lease))
  }

  function Run(h: History, events: seq<Event>): History {
    if events == [] then h else Step(Run(h, events[..|events| - 1]), events[|events| - 1])
  }

  // A freshly created job.
  predicate Fresh(h: History) {
    && h.job.status == QUEUED && h.job.attemptCount == 0 && h.job.maxAttempts >= 1 && h.job.dispatchedAt.None?
    && h.job.startedAt.None? && h.job.nextRetryAt.None? && h.claims == 0 && h.enqueued == []
    && h.job.proposal != Some(APPLYING)
  }

  predicate Inv(h: History) {
    && h.claims == h.job.attemptCount <= h.job.maxAttempts
    && (Waiting(h.job) ==> h.job.attemptCount < h.job.maxAttempts)
    && (h.job.status == QUEUED ==> h.job.attemptCount == 0 && h.job.nextRetryAt.None?)
    && (h.job.status != QUEUED ==> h.job.attemptCount >= 1)
    && (h.job.status == RETRY_WAIT ==> h.job.nextRetryAt == Some(h.job.availableAt))
    && (Waiting(h.job) && h.job.dispatchedAt.Some? ==> h.job.attemptCount + 1 in h.enqueued && h.job.availableAt <= h.job.dispatchedAt.value)
    && (h.job.proposal == Some(APPLYING) ==> h.job.attemptCount >= 1)
  }

  // A failure can only be reported, and a job only be finished, by a worker that claimed it.
  predicate Possible(h: History, e: Event) {
    e.EFinish? || e.EFail? || e.ECancel? ==> h.claims >= 1
  }

  predicate PossibleRun(h: History, events: seq<Event>) {
    events == [] || (PossibleRun(h, events[..|events| - 1]) && Possible(Run(h, events[..|events| - 1]), events[|events| - 1]))
  }

  lemma {:induction false} StepKeepsInv(h: History, e: Event)
    requires Inv(h) && Possible(h, e)
    ensures Inv(Step(h, e)) && Step(h, e).job.maxAttempts == h.job.maxAttempts
  {
  }

  lemma {:induction false} RunKeepsInv(h: History, events: seq<Event>)
    requires Fresh(h) && PossibleRun(h, events)
    ensures Inv(Run(h, events)) && Run(h, events).job.maxAttempts == h.job.maxAttempts
  {
    if events != [] {
      RunKeepsInv(h, events[..|events| - 1]);
      StepKeepsInv(Run(h, events[..|events| - 1]), events[|events| - 1]);
    }
  }

  // Under every interleaving a job is claimed at most `max_attempts` times.
  lemma {:induction false} ClaimedAtMostMaxAttempts(h: History, events: seq<Event>)
    requires Fresh(h) && PossibleRun(h, events)
    ensures
      var after := Run(h, events);
      && after.claims == after.job.attemptCount <= h.job.maxAttempts
      && (Waiting(after.job) ==> after.claims < h.job.maxAttempts)
  {
    RunKeepsInv(h, events);
  }

  // Is a delivery of this waiting job, at this time, not too early?
  predicate Due(job: Job, now: int) { job.status == QUEUED || job.availableAt <= now }

  // Over every run: a delivery claims a waiting job exactly when it is due, so on a queued job always and
  // on a retried one not before its retry time.  A waiting job that was dispatched has a delivery under
  // its next attempt's id, sent when it was due.
  lemma {:induction false} DeliveryClaimsIffDue(h: History, events: seq<Event>, now: int)
    requires Fresh(h) && PossibleRun(h, events) && Waiting(Run(h, events).job)
    ensures
      var after := Run(h, events);
      && (Claims(after.job, now) <==> Due(after.job, now))
      && (after.job.dispatchedAt.Some? ==>
            after.job.attemptCount + 1 in after.enqueued && Due(after.job, after.job.dispatchedAt.value))
  {
    RunKeepsInv(h, events);
  }

  // What the scheduler does by itself to a job: dispatch, delivery, reconciliation.
  predicate Scheduling(events: seq<Event>) {
    forall i :: 0 <= i < |events| ==> events[i].EDispatch? || events[i].EDeliver? || events[i].EReconcile?
  }

  predicate HasDueDelivery(job: Job, events: seq<Event>) {
    exists i :: 0 <= i < |events| && events[i].EDeliver? && Due(job, events[i].now)
  }

  lemma {:induction false} ScheduledOn(h: History, events: seq<Event>)
    requires Inv(h) && Waiting(h.job) && h.job.dispatchedAt.Some? && Scheduling(events)
    ensures
      if HasDueDelivery(h.job, events) then Run(h, events).job.attemptCount > h.job.attemptCount
      else Run(h, events).job == h.job
  {
    if events != [] {
      var front := events[..|events| - 1];
      ScheduledOn(h, front);
      assert HasDueDelivery(h.job, front) ==> HasDueDelivery(h.job, events) by {
        if HasDueDelivery(h.job, front) {
          var i :| 0 <= i < |front| && front[i].EDeliver? && Due(h.job, front[i].now);
          assert events[i] == front[i];
        }
      }
      var last := events[|events| - 1];
      assert HasDueDelivery(h.job, events) && !HasDueDelivery(h.job, front) ==> last.EDeliver? && Due(h.job, last.now) by {
        if HasDueDelivery(h.job, events) {
          var i :| 0 <= i < |events| && events[i].EDeliver? && Due(h.job, events[i].now);
          if i < |front| { assert front[i] == events[i]; }
        }
      }
    }
  }

  // A waiting job that was dispatched is never looked at again by the dispatcher or the reconciliation: over
  // any further scheduling it stays as it is, for ever waiting, exactly when every delivery that still
  // arrives reads a clock before the retry time.
  lemma {:induction false} LostIffDeliveredEarly(h: History, before: seq<Event>, events: seq<Event>)
    requires Fresh(h) && PossibleRun(h, before)
    requires Waiting(Run(h, before).job) && Run(h, before).job.dispatchedAt.Some? && Scheduling(events)
    ensures
      var job := Run(h, before).job;
      Run(Run(h, before), events).job == job <==> !HasDueDelivery(job, events)
  {
    RunKeepsInv(h, before);
    ScheduledOn(Run(h, before), events);
  }

  // An applied proposal, and one whose application failed, stay as they are.
  lemma {:induction false} SettledProposalStays(h: History, events: seq<Event>)
    requires h.job.proposal == Some(APPLIED) || h.job.proposal == Some(APPLY_FAILED)
    ensures Run(h, events).job.proposal == h.job.proposal
  {
    if events != [] { SettledProposalStays(h, events[..|events| - 1]); }
  }

  // An approved proposal is taken up by the first claim and not before; from then on it is being applied,
  // applied, or failed to apply.
  lemma {:induction false} ApprovedUntilClaimed(h: History, events: seq<Event>)
    requires Fresh(h) && PossibleRun(h, events) && h.job.proposal == Some(APPROVED)
    ensures
      var after := Run(h, events);
      if after.claims == 0 then after.job.proposal == Some(APPROVED)
      else after.job.proposal == Some(APPLYING) || after.job.proposal == Some(APPLIED) || after.job.proposal == Some(APPLY_FAILED)
  {
    if events != [] {
      ApprovedUntilClaimed(h, events[..|events| - 1]);
      RunKeepsInv(h, events[..|events| - 1]);
    }
  }

  predicate Reports(e: Event) { e.EFail? && e.transient }

  // A terminal status is left exactly by a transient failure report while attempts are left: `_handle_failure`
  // does not look at the status.
  lemma {:induction false} TerminalStep(h: History, e: Event)
    requires Terminal(h.job.status)
    ensures Waiting(Step(h, e).job) <==> Reports(e) && h.job.attemptCount < h.job.maxAttempts
    ensures !Waiting(Step(h, e).job) ==> Terminal(Step(h, e).job.status)
    ensures Step(h, e).job.attemptCount == h.job.attemptCount && Step(h, e).job.maxAttempts == h.job.maxAttempts
  {
  }

  // Terminal now and after every event of the run.
  predicate StaysTerminal(h: History, events: seq<Event>) {
    Terminal(Run(h, events).job.status) && (events == [] || StaysTerminal(h, events[..|events| - 1]))
  }

  predicate HasReport(events: seq<Event>) { exists i :: 0 <= i < |events| && Reports(events[i]) }

  lemma {:induction false} HasReportAtEnd(events: seq<Event>)
    requires events != []
    ensures HasReport(events) <==> HasReport(events[..|events| - 1]) || Reports(events[|events| - 1])
  {
    var front := events[..|events| - 1];
    if HasReport(events) {
      var i :| 0 <= i < |events| && Reports(events[i]);
      if i < |front| { assert Reports(front[i]); }
    }
    if HasReport(front) {
      var i :| 0 <= i < |front| && Reports(front[i]);
      assert Reports(events[i]);
    }
  }

  // A job that has ended stays ended over a run exactly when its attempts are used up or no transient
  // failure is reported, by whatever earlier worker.
  lemma {:induction false} EndedUnlessReported(h: History, events: seq<Event>)
    requires Terminal(h.job.status)
    ensures StaysTerminal(h, events) <==> h.job.attemptCount >= h.job.maxAttempts || !HasReport(events)
    ensures StaysTerminal(h, events) ==>
              Run(h, events).job.attemptCount == h.job.attemptCount && Run(h, events).job.maxAttempts == h.job.maxAttempts
  {
    if events != [] {
      var front := events[..|events| - 1];
      EndedUnlessReported(h, front);
      HasReportAtEnd(events);
      if StaysTerminal(h, front) { TerminalStep(Run(h, front), events[|events| - 1]); }
    }
  }

  // It happens: the failure report of an earlier worker makes a job claimable that had succeeded.
  lemma {:induction false} ZombieFailureReopensTheJob(h: History, now: int, delay: nat)
    requires Terminal(h.job.status) && h.job.attemptCount < h.job.maxAttempts
    ensures !StaysTerminal(h, [EFail(true, now, delay)])
    ensures Claims(Run(h, [EFail(true, now, delay)]).job, now + delay)
  {
    assert [EFail(true, now, delay)][..0] == [] && Run(h, []) == h;
  }
}
