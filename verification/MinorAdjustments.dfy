// app/infrastructure/adapters/learning_tools.py (`_apply_minor_proposal`), app/application/agent_runs.py
// (`ProposalService.decide`) and app/workers/tasks.py (`expire_proposals`): how a minor adjustment reaches
// a plan task.  Every transaction is one step; rows are numbered by their place in the table.
module AdjustmentSpec {
  import opened Wrappers
  import opened Rounding

  datatype TaskOrigin = SYSTEM | STUDENT | AGENT | LEGACY

  datatype Task = Task(
    student: nat,
    plan: nat,
    taskType: nat,
    knowledge: seq<nat>,
    date: int,
    order: nat,
    pending: bool,
    origin: TaskOrigin,
    effectiveMinutes: nat,
    suggestedMinutes: nat,
    minMinutes: nat,
    maxMinutes: nat,
    plannedUnits: nat,
    version: nat)

  datatype Status = PENDING | AWAITING_CONFIRMATION | APPROVED | REJECTED | EXPIRED | AUTO_COMMITTED | APPLIED | APPLY_FAILED

  datatype ApplyError = EVIDENCE_STALE | ELIGIBLE_TASK_NOT_FOUND | PLAN_CAPACITY_EXCEEDED

  datatype Evidence = TaskEvidence(task: nat, taskVersion: nat) | AttemptEvidence(attempt: nat, createdAt: nat)

  datatype Attempt = Attempt(owner: nat, createdAt: nat)

  // A MINOR_ADJUST proposal; `sourceTask` is the task named by the job of its run.
  datatype Proposal = Proposal(
    run: nat,
    student: nat,
    status: Status,
    factor: real,
    confidence: real,
    hasEvidenceRefs: bool,
    snapshot: seq<Evidence>,
    sourceTask: Option<nat>,
    expiresAt: Option<int>,
    error: Option<ApplyError>)

  const CONFIDENT := 0.75
  const LOWEST_FACTOR := 0.75
  const HIGHEST_FACTOR := 1.25
  const APPROVAL_PERIOD := 7 * 24 * 3600

  // What the plan allows on a day, and the day on which the transaction runs.
  datatype Calendar = Calendar(today: int, now: int, capacity: (nat, int) -> int)

  function Clamped(factor: real): real {
    var atLeast := if factor < LOWEST_FACTOR then LOWEST_FACTOR else factor;
    if atLeast > HIGHEST_FACTOR then HIGHEST_FACTOR else atLeast
  }

  function AtLeastOne(n: int): nat { if n < 1 then 1 else n }

  // `max(1, round(n * factor))`.
  function Scaled(n: nat, factor: real): nat {
    AtLeastOne(RoundHalfEven(n as real * factor))
  }

  function Source(tasks: seq<Task>, p: Proposal): Option<nat> {
    if p.sourceTask.Some? && p.sourceTask.value < |tasks| && tasks[p.sourceTask.value].student == p.student
       && tasks[p.sourceTask.value].origin != LEGACY
    then p.sourceTask else None
  }

  // The version of a task in the snapshot: the first matching entry counts.
  function SnapshotVersion(snapshot: seq<Evidence>, task: nat): Option<nat> {
    if snapshot == [] then None
    else if snapshot[0].TaskEvidence? && snapshot[0].task == task then Some(snapshot[0].taskVersion)
    else SnapshotVersion(snapshot[1..], task)
  }

  predicate Eligible(tasks: seq<Task>, source: nat, i: nat, today: int)
    requires source < |tasks| && i < |tasks|
  {
    var s, t := tasks[source], tasks[i];
    && t.student == s.student && t.plan == s.plan && i != source && t.taskType == s.taskType
    && s.knowledge != [] && s.knowledge[0] in t.knowledge
    && t.pending && t.origin != LEGACY && t.date >= today
  }

  predicate Sooner(a: Task, b: Task) { a.date < b.date || (a.date == b.date && a.order < b.order) }

  // The earliest eligible task among the first `k`.
  function TargetOfFirst(tasks: seq<Task>, source: nat, today: int, k: nat): (target: Option<nat>)
    requires source < |tasks| && k <= |tasks|
    ensures target.Some? ==> target.value < k && Eligible(tasks, source, target.value, today)
  {
    if k == 0 then None
    else
      var best := TargetOfFirst(tasks, source, today, k - 1);
      if Eligible(tasks, source, k - 1, today) && (best.None? || Sooner(tasks[k - 1], tasks[best.value])) then Some(k - 1) else best
  }

  function Target(tasks: seq<Task>, source: nat, today: int): Option<nat>
    requires source < |tasks|
  {
    TargetOfFirst(tasks, source, today, |tasks|)
  }

  predicate OnDay(t: Task, plan: nat, date: int) { t.plan == plan && t.date == date && t.pending && t.origin != LEGACY }

  // The pending minutes of a day, legacy tasks aside.
  function DayTotalOfFirst(tasks: seq<Task>, plan: nat, date: int, k: nat): nat
    requires k <= |tasks|
  {
    if k == 0 then 0
    else DayTotalOfFirst(tasks, plan, date, k - 1) + if OnDay(tasks[k - 1], plan, date) then tasks[k - 1].effectiveMinutes else 0
  }

  function DayTotal(tasks: seq<Task>, plan: nat, date: int): nat { DayTotalOfFirst(tasks, plan, date, |tasks|) }

  function Recalibrated(t: Task, factor: real): Task {
    var adjusted := Scaled(t.effectiveMinutes, factor);
    t.(suggestedMinutes := adjusted, effectiveMinutes := adjusted, minMinutes := adjusted, maxMinutes := adjusted,
       plannedUnits := if t.plannedUnits != 0 then Scaled(t.plannedUnits, factor) else 0,
       origin := AGENT, version := t.version + 1)
  }

  datatype Applied = Applied(tasks: seq<Task>, proposal: Proposal, changed: Option<nat>)

  function Refused(tasks: seq<Task>, p: Proposal, manual: bool, error: ApplyError): Applied {
    Applied(tasks, p.(status := if manual then APPLY_FAILED else AWAITING_CONFIRMATION, error := Some(error)), None)
  }

  predicate FreshSource(tasks: seq<Task>, p: Proposal) {
    Source(tasks, p).Some? && SnapshotVersion(p.snapshot, Source(tasks, p).value) == Some(tasks[Source(tasks, p).value].version)
  }

  predicate Fits(tasks: seq<Task>, i: nat, adjusted: nat, cal: Calendar)
    requires i < |tasks|
  {
    DayTotal(tasks, tasks[i].plan, tasks[i].date) - tasks[i].effectiveMinutes + adjusted
    <= cal.capacity(tasks[i].student, tasks[i].date)
  }

  // `_apply_minor_proposal`.
  function Apply(tasks: seq<Task>, p: Proposal, manual: bool, cal: Calendar): Applied {
    if !p.hasEvidenceRefs || (p.confidence < CONFIDENT && !manual) then
      Applied(tasks, p.(status := AWAITING_CONFIRMATION, expiresAt := Some(cal.now + APPROVAL_PERIOD)), None)
    else if !FreshSource(tasks, p) then Refused(tasks, p, manual, EVIDENCE_STALE)
    else
      var target := Target(tasks, Source(tasks, p).value, cal.today);
      if target.None? then Refused(tasks, p, manual, ELIGIBLE_TASK_NOT_FOUND)
      else
        var after := Recalibrated(tasks[target.value], Clamped(p.factor));
        if !Fits(tasks, target.value, after.effectiveMinutes, cal) then Refused(tasks, p, manual, PLAN_CAPACITY_EXCEEDED)
        else
          Applied(tasks[target.value := after],
                  p.(status := if manual then APPLIED else AUTO_COMMITTED, error := None), target)
  }

  predicate EvidenceCurrent(tasks: seq<Task>, attempts: map<nat, Attempt>, p: Proposal, e: Evidence) {
    match e
    case TaskEvidence(i, v) => i < |tasks| && tasks[i].student == p.student && tasks[i].version == v
    case AttemptEvidence(a, at) => a in attempts && attempts[a] == Attempt(p.student, at)
  }

  predicate AllCurrent(tasks: seq<Task>, attempts: map<nat, Attempt>, p: Proposal) {
    p.snapshot != [] && forall i :: 0 <= i < |p.snapshot| ==> EvidenceCurrent(tasks, attempts, p, p.snapshot[i])
  }

  // `ProposalService.decide` for a minor adjustment.
  function Decide(tasks: seq<Task>, attempts: map<nat, Attempt>, p: Proposal, approve: bool, cal: Calendar): Applied {
    if p.status != AWAITING_CONFIRMATION && p.status != PENDING then Applied(tasks, p, None)
    else if p.expiresAt.Some? && p.expiresAt.value <= cal.now then Applied(tasks, p.(status := EXPIRED), None)
    else if approve && !AllCurrent(tasks, attempts, p) then Applied(tasks, p.(status := EXPIRED, error := Some(EVIDENCE_STALE)), None)
    else if !approve then Applied(tasks, p.(status := REJECTED), None)
    else Apply(tasks, p.(status := APPROVED), true, cal)
  }

  predicate Expires(p: Proposal, now: int) {
    p.status == AWAITING_CONFIRMATION && p.expiresAt.Some? && p.expiresAt.value <= now
  }

  // ---- One application ---------------------------------------------------------------------

  lemma {:induction false} DayTotalAfterUpdate(tasks: seq<Task>, i: nat, t: Task, k: nat)
    requires i < |tasks| && k <= |tasks|
    requires OnDay(tasks[i], tasks[i].plan, tasks[i].date) && OnDay(t, tasks[i].plan, tasks[i].date)
    ensures DayTotalOfFirst(tasks[i := t], tasks[i].plan, tasks[i].date, k)
            == DayTotalOfFirst(tasks, tasks[i].plan, tasks[i].date, k)
               + if i < k then t.effectiveMinutes - tasks[i].effectiveMinutes else 0
  {
    if k > 0 { DayTotalAfterUpdate(tasks, i, t, k - 1); }
  }

  // What an application does: exactly one task changes, and right after it the day's pending minutes are
  // within capacity; or nothing changes and the proposal is not marked as applied.
  lemma {:induction false} ApplyIsGuarded(tasks: seq<Task>, p: Proposal, manual: bool, cal: Calendar)
    ensures
      var a := Apply(tasks, p, manual, cal);
      && (a.changed.Some? <==> a.proposal.status == if manual then APPLIED else AUTO_COMMITTED)
      && (a.changed.None? ==> a.tasks == tasks)
      && (a.changed.Some? ==>
            var i := a.changed.value;
            && i < |tasks| && a.tasks == tasks[i := Recalibrated(tasks[i], Clamped(p.factor))]
            && DayTotal(a.tasks, tasks[i].plan, tasks[i].date) <= cal.capacity(tasks[i].student, tasks[i].date))
  {
    var a := Apply(tasks, p, manual, cal);
    if a.changed.Some? {
      var i := a.changed.value;
      DayTotalAfterUpdate(tasks, i, Recalibrated(tasks[i], Clamped(p.factor)), |tasks|);
    }
  }

  // The changed task is a pending one of the same plan, type and topic as the source, from today on, and
  // none of those comes sooner; the source itself is left alone.
  lemma {:induction false} TargetIsSoonest(tasks: seq<Task>, source: nat, today: int, k: nat, j: nat)
    requires source < |tasks| && j < k <= |tasks| && Eligible(tasks, source, j, today)
    ensures
      var target := TargetOfFirst(tasks, source, today, k);
      target.Some? && target.value != source && !Sooner(tasks[j], tasks[target.value])
  {
    if j < k - 1 { TargetIsSoonest(tasks, source, today, k - 1, j); }
  }

  // The new duration is within a quarter of the old one, up to rounding, and never zero.
  predicate Modest(minutes: nat, adjusted: int) {
    adjusted >= 1 && (minutes >= 1 ==> 3 * minutes - 2 <= 4 * adjusted <= 5 * minutes + 2)
  }

  lemma {:induction false} AdjustmentIsModest(minutes: nat, factor: real)
    ensures Modest(minutes, Scaled(minutes, Clamped(factor)))
  {
    ScaledIsModest(minutes, Clamped(factor));
  }

  lemma {:induction false} ScaledIsModest(minutes: nat, f: real)
    requires LOWEST_FACTOR <= f <= HIGHEST_FACTOR
    ensures Modest(minutes, Scaled(minutes, f))
  {
    var x := Proportional(minutes as real, f);
    ScaledIsRounded(minutes, f, x);
    RoundedIsModest(minutes, x);
  }

  lemma {:induction false} ScaledIsRounded(n: nat, f: real, x: real)
    requires x == n as real * f
    ensures Scaled(n, f) == AtLeastOne(RoundHalfEven(x))
  {
  }

  lemma {:induction false} RoundedIsModest(minutes: nat, x: real)
    requires 0.75 * minutes as real <= x <= 1.25 * minutes as real
    ensures Modest(minutes, AtLeastOne(RoundHalfEven(x)))
  {
    RoundIsClose(x);
  }

  lemma {:induction false} Proportional(minutes: real, f: real) returns (x: real)
    requires minutes >= 0.0 && LOWEST_FACTOR <= f <= HIGHEST_FACTOR
    ensures x == minutes * f && 0.75 * minutes <= x <= 1.25 * minutes
  {
    x := minutes * f;
    Product(f - 0.75, minutes);
    Product(1.25 - f, minutes);
  }

  lemma {:induction false} Product(a: real, b: real)
    requires a >= 0.0 && b >= 0.0
    ensures a * b >= 0.0
  {
  }

  // A change makes every snapshot that names the task stale.
  lemma {:induction false} ChangeOutdatesEvidence(tasks: seq<Task>, p: Proposal, manual: bool, cal: Calendar,
                                                  attempts: map<nat, Attempt>, other: Proposal)
    requires Apply(tasks, p, manual, cal).changed.Some?
    requires TaskEvidence(Apply(tasks, p, manual, cal).changed.value, tasks[Apply(tasks, p, manual, cal).changed.value].version) in other.snapshot
    ensures !AllCurrent(Apply(tasks, p, manual, cal).tasks, attempts, other)
  {
    var i := Apply(tasks, p, manual, cal).changed.value;
    var k :| 0 <= k < |other.snapshot| && other.snapshot[k] == TaskEvidence(i, tasks[i].version);
    assert !EvidenceCurrent(Apply(tasks, p, manual, cal).tasks, attempts, other, other.snapshot[k]);
  }

  // ---- Runs --------------------------------------------------------------------------------

  // The tables, and for every proposal the tasks it has changed so far.
  datatype World = World(tasks: seq<Task>, proposals: seq<Proposal>, changes: seq<seq<nat>>) {
    predicate Sized() { |proposals| == |changes| }

    function After(i: nat, a: Applied): World
      requires i < |proposals| && Sized()
    {
      World(a.tasks, proposals[i := a.proposal], if a.changed.Some? then changes[i := changes[i] + [a.changed.value]] else changes)
    }
  }

  // `apply_minor_proposals` over the first `k` proposals.
  function AutoApply(w: World, run: nat, cal: Calendar, k: nat): (after: World)
    requires w.Sized() && k <= |w.proposals|
    ensures after.Sized() && |after.proposals| == |w.proposals|
    ensures forall i :: k <= i < |w.proposals| ==> after.proposals[i] == w.proposals[i]
  {
    if k == 0 then w
    else
      var before := AutoApply(w, run, cal, k - 1);
      if before.proposals[k - 1].run == run && before.proposals[k - 1].status == PENDING
      then before.After(k - 1, Apply(before.tasks, before.proposals[k - 1], false, cal))
      else before
  }

  datatype Event =
    | EAutoApply(run: nat, cal: Calendar)
    | EDecide(i: nat, approve: bool, attempts: map<nat, Attempt>, cal: Calendar)
    | EExpire(now: int)
    | EEdit(tasks: seq<Task>)
    | ECreate(proposal: Proposal)

  function ExpireAll(ps: seq<Proposal>, now: int): seq<Proposal> {
    seq(|ps|, i requires 0 <= i < |ps| => if Expires(ps[i], now) then ps[i].(status := EXPIRED) else ps[i])
  }

  // Students and other services may edit the tasks in any way; new proposals start PENDING.
  function Step(w: World, e: Event): (after: World)
    requires w.Sized()
    ensures after.Sized()
  {
    match e
    case EAutoApply(run, cal) => AutoApply(w, run, cal, |w.proposals|)
    case EDecide(i, approve, attempts, cal) =>
      if i < |w.proposals| then w.After(i, Decide(w.tasks, attempts, w.proposals[i], approve, cal)) else w
    case EExpire(now) => w.(proposals := ExpireAll(w.proposals, now))
    case EEdit(tasks) => w.(tasks := tasks)
    case ECreate(p) => w.(proposals := w.proposals + [p.(status := PENDING)], changes := w.changes + [[]])
  }

  function Run(w: World, events: seq<Event>): (after: World)
    requires w.Sized()
    ensures after.Sized()
  {
    if events == [] then w else Step(Run(w, events[..|events| - 1]), events[|events| - 1])
  }

  predicate Landed(p: Proposal) { p.status == AUTO_COMMITTED || p.status == APPLIED }

  // A proposal has changed one task if it is marked as applied, and none otherwise.
  predicate ExactlyOnce(w: World)
    requires w.Sized()
  {
    forall i :: 0 <= i < |w.proposals| ==> |w.changes[i]| == if Landed(w.proposals[i]) then 1 else 0
  }

  lemma {:induction false} AfterKeepsExactlyOnce(w: World, i: nat, manual: bool, cal: Calendar, p: Proposal)
    requires w.Sized() && ExactlyOnce(w) && i < |w.proposals| && !Landed(w.proposals[i])
    ensures ExactlyOnce(w.After(i, Apply(w.tasks, p, manual, cal)))
  {
    ApplyIsGuarded(w.tasks, p, manual, cal);
  }

  lemma {:induction false} AutoApplyKeepsExactlyOnce(w: World, run: nat, cal: Calendar, k: nat)
    requires w.Sized() && ExactlyOnce(w) && k <= |w.proposals|
    ensures ExactlyOnce(AutoApply(w, run, cal, k))
  {
    if k > 0 {
      AutoApplyKeepsExactlyOnce(w, run, cal, k - 1);
      var before := AutoApply(w, run, cal, k - 1);
      var p := before.proposals[k - 1];
      if p.run == run && p.status == PENDING { AfterKeepsExactlyOnce(before, k - 1, false, cal, p); }
    }
  }

  lemma {:induction false} StepKeepsExactlyOnce(w: World, e: Event)
    requires w.Sized() && ExactlyOnce(w)
    ensures ExactlyOnce(Step(w, e))
  {
    match e
    case EAutoApply(run, cal) => AutoApplyKeepsExactlyOnce(w, run, cal, |w.proposals|);
    case EDecide(i, approve, attempts, cal) =>
      if i < |w.proposals| && !Landed(w.proposals[i]) {
        AfterKeepsExactlyOnce(w, i, true, cal, w.proposals[i].(status := APPROVED));
      }
    case _ =>
  }

  // Over any sequence of automatic applications, decisions, expiries and edits, a proposal changes one task
  // exactly once if it is AUTO_COMMITTED or APPLIED, and none otherwise.
  lemma {:induction false} AdjustedExactlyOnce(w: World, events: seq<Event>)
    requires w.Sized() && ExactlyOnce(w)
    ensures ExactlyOnce(Run(w, events))
  {
    if events != [] {
      AdjustedExactlyOnce(w, events[..|events| - 1]);
      StepKeepsExactlyOnce(Run(w, events[..|events| - 1]), events[|events| - 1]);
    }
  }

  // ---- Capacity over a whole transaction ---------------------------------------------------

  // A plan belongs to one student.
  predicate OneStudentPerPlan(tasks: seq<Task>) {
    forall i, j :: 0 <= i < |tasks| && 0 <= j < |tasks| && tasks[i].plan == tasks[j].plan ==> tasks[i].student == tasks[j].student
  }

  predicate WithinCapacity(tasks: seq<Task>, i: nat, cal: Calendar)
    requires i < |tasks|
  {
    DayTotal(tasks, tasks[i].plan, tasks[i].date) <= cal.capacity(tasks[i].student, tasks[i].date)
  }

  lemma {:induction false} DayTotalElsewhere(tasks: seq<Task>, i: nat, t: Task, plan: nat, date: int, k: nat)
    requires i < |tasks| && k <= |tasks| && !OnDay(tasks[i], plan, date) && !OnDay(t, plan, date)
    ensures DayTotalOfFirst(tasks[i := t], plan, date, k) == DayTotalOfFirst(tasks, plan, date, k)
  {
    if k > 0 { DayTotalElsewhere(tasks, i, t, plan, date, k - 1); }
  }

  // A later application leaves an earlier one's day within capacity.
  lemma {:induction false} ApplyKeepsCapacity(tasks: seq<Task>, p: Proposal, manual: bool, cal: Calendar, j: nat)
    requires OneStudentPerPlan(tasks) && j < |tasks| && WithinCapacity(tasks, j, cal)
    ensures |Apply(tasks, p, manual, cal).tasks| == |tasks| && WithinCapacity(Apply(tasks, p, manual, cal).tasks, j, cal)
  {
    ApplyIsGuarded(tasks, p, manual, cal);
    var a := Apply(tasks, p, manual, cal);
    if a.changed.Some? {
      var i := a.changed.value;
      if !(tasks[i].plan == tasks[j].plan && tasks[i].date == tasks[j].date) {
        DayTotalElsewhere(tasks, i, a.tasks[i], tasks[j].plan, tasks[j].date, |tasks|);
      }
    }
  }

  lemma {:induction false} ApplyKeepsPlans(tasks: seq<Task>, p: Proposal, manual: bool, cal: Calendar)
    requires OneStudentPerPlan(tasks)
    ensures OneStudentPerPlan(Apply(tasks, p, manual, cal).tasks) && |Apply(tasks, p, manual, cal).tasks| == |tasks|
  {
    ApplyIsGuarded(tasks, p, manual, cal);
  }

  // From `w` to `after`, which has treated the first `k` proposals: if proposal `i` changed a task, that
  // task's day is within capacity.
  predicate Kept(w: World, after: World, k: nat, i: nat, cal: Calendar)
    requires w.Sized() && after.Sized() && i < |w.proposals| == |after.proposals|
  {
    && OneStudentPerPlan(after.tasks) && |w.changes[i]| <= |after.changes[i]|
    && (i >= k ==> after.changes[i] == w.changes[i])
    && (|after.changes[i]| > |w.changes[i]| ==>
          var t := after.changes[i][|after.changes[i]| - 1];
          t < |after.tasks| && WithinCapacity(after.tasks, t, cal))
  }

  lemma {:induction false} OneMoreKept(w: World, before: World, j: nat, p: Proposal, i: nat, cal: Calendar)
    requires w.Sized() && before.Sized() && i < |w.proposals| == |before.proposals| && j < |before.proposals|
    requires Kept(w, before, j, i, cal)
    ensures Kept(w, before.After(j, Apply(before.tasks, p, false, cal)), j + 1, i, cal)
  {
    ApplyKeepsPlans(before.tasks, p, false, cal);
    if i == j {
      ApplyIsGuarded(before.tasks, p, false, cal);
    } else if |before.changes[i]| > |w.changes[i]| {
      ApplyKeepsCapacity(before.tasks, p, false, cal, before.changes[i][|before.changes[i]| - 1]);
    }
  }

  // When the transaction that applies a run's proposals is over, the day of every task it changed is within
  // capacity, whichever other tasks it changed.
  lemma {:induction false} AutoApplyWithinCapacity(w: World, run: nat, cal: Calendar, k: nat, i: nat)
    requires w.Sized() && k <= |w.proposals| && i < |w.proposals| && OneStudentPerPlan(w.tasks)
    ensures Kept(w, AutoApply(w, run, cal, k), k, i, cal)
  {
    if k > 0 {
      AutoApplyWithinCapacity(w, run, cal, k - 1, i);
      var before := AutoApply(w, run, cal, k - 1);
      var p := before.proposals[k - 1];
      if p.run == run && p.status == PENDING { OneMoreKept(w, before, k - 1, p, i, cal); }
    }
  }

  // ---- Statuses that last ------------------------------------------------------------------

  predicate Settled(p: Proposal) { p.status != PENDING && p.status != AWAITING_CONFIRMATION }

  lemma {:induction false} AutoApplyKeepsSettled(w: World, run: nat, cal: Calendar, k: nat, i: nat)
    requires w.Sized() && k <= |w.proposals| && i < |w.proposals| && w.proposals[i].status != PENDING
    ensures AutoApply(w, run, cal, k).proposals[i] == w.proposals[i]
  {
    if k > 0 { AutoApplyKeepsSettled(w, run, cal, k - 1, i); }
  }

  lemma {:induction false} SettledProposalsLast(w: World, events: seq<Event>, i: nat)
    requires w.Sized() && i < |w.proposals| && Settled(w.proposals[i])
    ensures |Run(w, events).proposals| >= |w.proposals| && Run(w, events).proposals[i] == w.proposals[i]
  {
    if events != [] {
      var before, e := Run(w, events[..|events| - 1]), events[|events| - 1];
      SettledProposalsLast(w, events[..|events| - 1], i);
      if e.EAutoApply? { AutoApplyKeepsSettled(before, e.run, e.cal, |before.proposals|, i); }
    }
  }

  predicate NonePending(w: World, run: nat, k: nat)
    requires k <= |w.proposals|
  {
    forall i :: 0 <= i < k && w.proposals[i].run == run ==> w.proposals[i].status != PENDING
  }

  // After an automatic application no proposal of the run is pending, so a repeat after a crash, on any
  // later day, changes nothing.
  lemma {:induction false} NothingStaysPending(w: World, run: nat, cal: Calendar, k: nat)
    requires w.Sized() && k <= |w.proposals|
    ensures NonePending(AutoApply(w, run, cal, k), run, k)
  {
    if k > 0 {
      NothingStaysPending(w, run, cal, k - 1);
      var before := AutoApply(w, run, cal, k - 1);
      var p := before.proposals[k - 1];
      if p.run == run && p.status == PENDING { ApplyIsGuarded(before.tasks, p, false, cal); }
    }
  }

  lemma {:induction false} NothingToApply(w: World, run: nat, cal: Calendar, k: nat)
    requires w.Sized() && k <= |w.proposals|
    requires NonePending(w, run, |w.proposals|)
    ensures AutoApply(w, run, cal, k) == w
  {
    if k > 0 { NothingToApply(w, run, cal, k - 1); }
  }

  lemma {:induction false} AutoApplyIsIdempotent(w: World, run: nat, cal: Calendar, later: Calendar)
    requires w.Sized()
    ensures
      var once := AutoApply(w, run, cal, |w.proposals|);
      AutoApply(once, run, later, |once.proposals|) == once
  {
    var once := AutoApply(w, run, cal, |w.proposals|);
    NothingStaysPending(w, run, cal, |w.proposals|);
    NothingToApply(once, run, later, |once.proposals|);
  }

  // ---- What each event may do to a proposal ------------------------------------------------

  predicate Open(p: Proposal) { p.status == PENDING || p.status == AWAITING_CONFIRMATION }

  predicate Unexpired(p: Proposal, now: int) { p.expiresAt.Some? ==> now < p.expiresAt.value }

  // A decision on an open proposal, in its five cases: expired, rejected, approved on stale evidence, approved
  // without evidence references, and approved for application.
  lemma {:induction false} DecisionDoesAsTold(tasks: seq<Task>, attempts: map<nat, Attempt>, p: Proposal,
      approve: bool, cal: Calendar)
    ensures
      var d := Decide(tasks, attempts, p, approve, cal);
      && (!Open(p) ==> d == Applied(tasks, p, None))
      && (Open(p) && !Unexpired(p, cal.now) ==> d == Applied(tasks, p.(status := EXPIRED), None))
      && (Open(p) && Unexpired(p, cal.now) && !approve ==> d == Applied(tasks, p.(status := REJECTED), None))
      && (Open(p) && Unexpired(p, cal.now) && approve && !AllCurrent(tasks, attempts, p) ==>
            d.tasks == tasks && d.changed.None? && d.proposal.status == EXPIRED && d.proposal.error == Some(EVIDENCE_STALE))
      && (Open(p) && Unexpired(p, cal.now) && approve && AllCurrent(tasks, attempts, p) ==>
            && (p.hasEvidenceRefs ==> d.proposal.status == (if d.changed.Some? then APPLIED else APPLY_FAILED))
            && (!p.hasEvidenceRefs ==> d.tasks == tasks && d.changed.None? && d.proposal.status == AWAITING_CONFIRMATION))
  {
    ApplyIsGuarded(tasks, p.(status := APPROVED), true, cal);
  }

  // An approval does not always settle a proposal: one without evidence references goes back to waiting.
  lemma {:induction false} ApprovalSettlesIffReferenced(tasks: seq<Task>, attempts: map<nat, Attempt>, p: Proposal,
      cal: Calendar)
    requires Open(p) && Unexpired(p, cal.now) && AllCurrent(tasks, attempts, p)
    ensures
      var after := Decide(tasks, attempts, p, true, cal).proposal.status;
      (after == APPLIED || after == APPLY_FAILED) <==> p.hasEvidenceRefs
  {
    DecisionDoesAsTold(tasks, attempts, p, true, cal);
  }

  // What the automatic transaction makes of one proposal, on the tasks as the earlier ones have left them.
  lemma {:induction false} AutoApplyEach(w: World, run: nat, cal: Calendar, k: nat, i: nat)
    requires w.Sized() && i < |w.proposals| && k <= |w.proposals|
    ensures
      var after := AutoApply(w, run, cal, k);
      if i < k && w.proposals[i].run == run && w.proposals[i].status == PENDING
      then after.proposals[i] == Apply(AutoApply(w, run, cal, i).tasks, w.proposals[i], false, cal).proposal
      else after.proposals[i] == w.proposals[i] && after.changes[i] == w.changes[i]
  {
    if k > 0 { AutoApplyEach(w, run, cal, k - 1, i); }
  }

  // What must have happened for a proposal to get a status, told from the event and the world before it.
  predicate Caused(w: World, e: Event, i: nat, status: Status)
    requires i < |w.proposals|
  {
    var p := w.proposals[i];
    match status
    case APPLIED => ApprovedFairly(w, e, i)
    case APPLY_FAILED => ApprovedFairly(w, e, i)
    case REJECTED => e.EDecide? && e.i == i && !e.approve && Open(p) && Unexpired(p, e.cal.now)
    case AUTO_COMMITTED =>
      e.EAutoApply? && e.run == p.run && p.status == PENDING && p.hasEvidenceRefs && p.confidence >= 0.75
    case EXPIRED =>
      || (e.EExpire? && p.status == AWAITING_CONFIRMATION && !Unexpired(p, e.now))
      || (e.EDecide? && e.i == i && Open(p) && !Unexpired(p, e.cal.now))
      || (e.EDecide? && e.i == i && Open(p) && e.approve && !AllCurrent(w.tasks, e.attempts, p))
    case AWAITING_CONFIRMATION =>
      || (e.EAutoApply? && e.run == p.run && p.status == PENDING)
      || (ApprovedFairly(w, e, i) && !p.hasEvidenceRefs)
    case _ => false
  }

  predicate ApprovedFairly(w: World, e: Event, i: nat)
    requires i < |w.proposals|
  {
    var p := w.proposals[i];
    e.EDecide? && e.i == i && e.approve && Open(p) && Unexpired(p, e.cal.now) && AllCurrent(w.tasks, e.attempts, p)
  }

  // What the automatic application may make of a pending proposal.
  lemma {:induction false} AutomaticOutcome(tasks: seq<Task>, p: Proposal, cal: Calendar)
    ensures
      var a := Apply(tasks, p, false, cal);
      && (a.proposal.status == AUTO_COMMITTED || a.proposal.status == AWAITING_CONFIRMATION)
      && (a.proposal.status == AUTO_COMMITTED ==> p.hasEvidenceRefs && p.confidence >= 0.75)
      && (!p.hasEvidenceRefs || p.confidence < 0.75 ==>
            a.tasks == tasks && a.proposal.status == AWAITING_CONFIRMATION && a.proposal.expiresAt == Some(cal.now + 604800))
  {
  }

  // A status changes only for its cause: nothing is applied without a fair approval, nothing rejected without a
  // rejection, nothing committed automatically without references and confidence.
  lemma {:induction false} StatusHasACause(w: World, e: Event, i: nat)
    requires w.Sized() && i < |w.proposals|
    ensures i < |Step(w, e).proposals|
    ensures Step(w, e).proposals[i].status != w.proposals[i].status ==> Caused(w, e, i, Step(w, e).proposals[i].status)
  {
    if e.EAutoApply? {
      AutoApplyEach(w, e.run, e.cal, |w.proposals|, i);
      AutomaticOutcome(AutoApply(w, e.run, e.cal, i).tasks, w.proposals[i], e.cal);
    } else if e.EDecide? && e.i == i {
      DecisionDoesAsTold(w.tasks, e.attempts, w.proposals[i], e.approve, e.cal);
    }
  }

  // Over any run: a status that a proposal did not have before was caused by one of the events.
  lemma {:induction false} StatusWasCaused(w: World, events: seq<Event>, i: nat)
    requires w.Sized() && i < |w.proposals|
    ensures i < |Run(w, events).proposals|
    ensures Run(w, events).proposals[i].status != w.proposals[i].status ==>
              exists k :: 0 <= k < |events| && CausedAt(w, events, k, i, Run(w, events).proposals[i].status)
  {
    if events != [] {
      var front, last := events[..|events| - 1], events[|events| - 1];
      StatusWasCaused(w, front, i);
      StatusHasACause(Run(w, front), last, i);
      var status := Run(w, events).proposals[i].status;
      if status == Run(w, front).proposals[i].status {
        if status != w.proposals[i].status {
          var k :| 0 <= k < |front| && CausedAt(w, front, k, i, status);
          assert events[..k] == front[..k];
          assert CausedAt(w, events, k, i, status);
        }
      } else {
        assert CausedAt(w, events, |front|, i, status);
      }
    }
  }

  predicate CausedAt(w: World, events: seq<Event>, k: nat, i: nat, status: Status)
    requires w.Sized() && k < |events|
  {
    i < |Run(w, events[..k]).proposals| && Caused(Run(w, events[..k]), events[k], i, status)
  }

  // The expiry job leaves no overdue proposal waiting, touches no other, and changes no task.
  lemma {:induction false} OverdueExpires(w: World, now: int, i: nat)
    requires w.Sized() && i < |w.proposals|
    ensures
      var after, p := Step(w, EExpire(now)), w.proposals[i];
      && after.tasks == w.tasks && |after.proposals| == |w.proposals|
      && var overdue := p.status == AWAITING_CONFIRMATION && p.expiresAt.Some? && p.expiresAt.value <= now;
         after.proposals[i] == if overdue then p.(status := EXPIRED) else p
  {
  }

  // Evidence that is missing, changed or another student's makes every approval expire.
  lemma {:induction false} BadEvidenceExpires(tasks: seq<Task>, attempts: map<nat, Attempt>, p: Proposal,
      cal: Calendar, k: nat)
    requires Open(p) && k < |p.snapshot|
    requires match p.snapshot[k]
             case TaskEvidence(i, v) => i >= |tasks| || tasks[i].student != p.student || tasks[i].version != v
             case AttemptEvidence(a, at) => a !in attempts || attempts[a].owner != p.student || attempts[a].createdAt != at
    ensures Decide(tasks, attempts, p, true, cal).proposal.status == EXPIRED && Decide(tasks, attempts, p, true, cal).tasks == tasks
  {
    assert !EvidenceCurrent(tasks, attempts, p, p.snapshot[k]);
  }

  // ---- What a change changes ---------------------------------------------------------------

  // The number is the old one times the factor, rounded, and at least one.
  predicate Rescaled(old0: nat, new0: nat, factor: real) {
    new0 >= 1 && ((2.0 * (new0 as real - old0 as real * factor) <= 1.0 && 2.0 * (old0 as real * factor - new0 as real) <= 1.0)
                  || (new0 == 1 && old0 as real * factor < 1.0))
  }

  // All four durations are the rescaled one, the units follow if there are any, the agent signs the new version;
  // nothing else of the task moves.
  predicate DurationsRescaled(t: Task, after: Task, factor: real) {
    && Rescaled(t.effectiveMinutes, after.effectiveMinutes, factor)
    && after.suggestedMinutes == after.minMinutes == after.maxMinutes == after.effectiveMinutes
    && (if t.plannedUnits == 0 then after.plannedUnits == 0 else Rescaled(t.plannedUnits, after.plannedUnits, factor))
    && after.origin == AGENT && after.version == t.version + 1
    && after.student == t.student && after.plan == t.plan && after.taskType == t.taskType && after.knowledge == t.knowledge
    && after.date == t.date && after.order == t.order && after.pending == t.pending
  }

  // The factor that is used: the proposed one where it lies in the allowed range, its nearer end otherwise.
  predicate InRange(proposed: real, used: real) {
    0.75 <= used <= 1.25 && (0.75 <= proposed <= 1.25 ==> used == proposed)
    && (proposed < 0.75 ==> used == 0.75) && (proposed > 1.25 ==> used == 1.25)
  }

  lemma {:induction false} ScaledIsRescaled(n: nat, factor: real)
    requires factor >= 0.0
    ensures Rescaled(n, Scaled(n, factor), factor)
  {
    var x := NonNegativeProduct(n as real, factor);
    ScaledIsRounded(n, factor, x);
    NearestOrOne(x);
    RescaledBy(n, Scaled(n, factor), factor, x);
  }

  lemma {:induction false} NonNegativeProduct(a: real, b: real) returns (x: real)
    requires a >= 0.0 && b >= 0.0
    ensures x == a * b && x >= 0.0
  {
    x := a * b;
    Product(a, b);
  }

  predicate IsNearestOrOne(r: nat, x: real) {
    r >= 1 && ((2.0 * (r as real - x) <= 1.0 && 2.0 * (x - r as real) <= 1.0) || (r == 1 && x < 1.0))
  }

  lemma {:induction false} NearestOrOne(x: real)
    requires x >= 0.0
    ensures IsNearestOrOne(AtLeastOne(RoundHalfEven(x)), x)
  {
    RoundIsClose(x);
  }

  lemma {:induction false} RescaledBy(old0: nat, new0: nat, factor: real, x: real)
    requires x == old0 as real * factor && IsNearestOrOne(new0, x)
    ensures Rescaled(old0, new0, factor)
  {
  }

  // The whole effect of an application on the plan: the source is the named task of that student in the version
  // the evidence has seen; the changed task is another pending one of the same plan, type and topic from
  // today on; and only its durations move.
  lemma {:induction false} ChangeIsExact(tasks: seq<Task>, p: Proposal, manual: bool,
      cal: Calendar) returns (factor: real)
    requires Apply(tasks, p, manual, cal).changed.Some?
    ensures
      var a := Apply(tasks, p, manual, cal);
      var i := a.changed.value;
      && InRange(p.factor, factor)
      && i < |tasks| == |a.tasks| && DurationsRescaled(tasks[i], a.tasks[i], factor)
      && (forall j :: 0 <= j < |tasks| && j != i ==> a.tasks[j] == tasks[j])
      && p.sourceTask.Some? && p.sourceTask.value < |tasks| && i != p.sourceTask.value
      && var s, t := tasks[p.sourceTask.value], tasks[i];
         && s.student == t.student == p.student && s.origin != LEGACY && t.origin != LEGACY
         && s.plan == t.plan && s.taskType == t.taskType && s.knowledge != [] && s.knowledge[0] in t.knowledge
         && t.pending && cal.today <= t.date
         && TaskEvidence(p.sourceTask.value, s.version) in p.snapshot
  {
    factor := Clamped(p.factor);
    var i := Apply(tasks, p, manual, cal).changed.value;
    ScaledIsRescaled(tasks[i].effectiveMinutes, factor);
    ScaledIsRescaled(tasks[i].plannedUnits, factor);
    SeenVersion(p.snapshot, p.sourceTask.value);
  }

  lemma {:induction false} SeenVersion(snapshot: seq<Evidence>, task: nat)
    ensures SnapshotVersion(snapshot, task).Some? ==> TaskEvidence(task, SnapshotVersion(snapshot, task).value) in snapshot
    decreases |snapshot|
  {
    if snapshot != [] && !(snapshot[0].TaskEvidence? && snapshot[0].task == task) { SeenVersion(snapshot[1..], task); }
  }

  // ---- Exactly when an adjustment is applied -----------------------------------------------

  // Entry `k` is the first one about the task, and gives it this version.
  predicate FirstAt(snapshot: seq<Evidence>, task: nat, version: nat, k: nat) {
    && k < |snapshot| && snapshot[k] == TaskEvidence(task, version)
    && forall j :: 0 <= j < k && snapshot[j].TaskEvidence? ==> snapshot[j].task != task
  }

  // The task that the run was about is the student's own, not a legacy one, and still in the version that the
  // evidence gives it first.
  ghost predicate SourceIsFresh(tasks: seq<Task>, p: Proposal, s: nat) {
    && p.sourceTask == Some(s) && s < |tasks| && tasks[s].student == p.student && tasks[s].origin != LEGACY
    && exists k :: 0 <= k < |p.snapshot| && FirstAt(p.snapshot, s, tasks[s].version, k)
  }

  // Another pending task of the plan, with the source's type and first topic, that is not in the past.
  predicate Suits(tasks: seq<Task>, s: nat, j: nat, today: int) {
    && s < |tasks| && j < |tasks| && j != s
    && tasks[j].student == tasks[s].student && tasks[j].plan == tasks[s].plan && tasks[j].taskType == tasks[s].taskType
    && tasks[s].knowledge != [] && tasks[s].knowledge[0] in tasks[j].knowledge
    && tasks[j].pending && tasks[j].origin != LEGACY && today <= tasks[j].date
  }

  // No later than the other: by date, then by the order on the day, then by the place in the table.
  predicate NoLater(tasks: seq<Task>, j: nat, i: nat)
    requires j < |tasks| && i < |tasks|
  {
    || tasks[j].date < tasks[i].date
    || (tasks[j].date == tasks[i].date
        && (tasks[j].order < tasks[i].order || (tasks[j].order == tasks[i].order && j <= i)))
  }

  predicate Earliest(tasks: seq<Task>, s: nat, j: nat, today: int) {
    && Suits(tasks, s, j, today)
    && forall i :: 0 <= i < |tasks| && Suits(tasks, s, i, today) ==> NoLater(tasks, j, i)
  }

  lemma {:induction false} FirstVersion(snapshot: seq<Evidence>, task: nat, version: nat)
    ensures SnapshotVersion(snapshot, task) == Some(version) <==>
              exists k :: 0 <= k < |snapshot| && FirstAt(snapshot, task, version, k)
  {
    if snapshot != [] {
      var rest := snapshot[1..];
      FirstVersion(rest, task, version);
      var here := snapshot[0].TaskEvidence? && snapshot[0].task == task;
      if !here && exists k :: 0 <= k < |rest| && FirstAt(rest, task, version, k) {
        var k :| 0 <= k < |rest| && FirstAt(rest, task, version, k);
        assert forall j :: 0 <= j < k + 1 ==> snapshot[j] == if j == 0 then snapshot[0] else rest[j - 1];
        assert FirstAt(snapshot, task, version, k + 1);
      }
      if exists k :: 0 <= k < |snapshot| && FirstAt(snapshot, task, version, k) {
        var k :| 0 <= k < |snapshot| && FirstAt(snapshot, task, version, k);
        if k > 0 {
          assert forall j :: 0 <= j < k - 1 ==> rest[j] == snapshot[j + 1];
          assert FirstAt(rest, task, version, k - 1);
        }
      }
      if here && snapshot[0].taskVersion == version { assert FirstAt(snapshot, task, version, 0); }
    }
  }

  lemma {:induction false} FreshIff(tasks: seq<Task>, p: Proposal, s: nat)
    ensures FreshSource(tasks, p) && Source(tasks, p) == Some(s) <==> SourceIsFresh(tasks, p, s)
  {
    if s < |tasks| { FirstVersion(p.snapshot, s, tasks[s].version); }
  }

  lemma {:induction false} TargetIsEarliest(tasks: seq<Task>, s: nat, today: int, k: nat)
    requires s < |tasks| && k <= |tasks|
    ensures
      var target := TargetOfFirst(tasks, s, today, k);
      && (target.None? ==> forall i :: 0 <= i < k ==> !Suits(tasks, s, i, today))
      && (target.Some? ==>
            && Suits(tasks, s, target.value, today)
            && forall i :: 0 <= i < k && Suits(tasks, s, i, today) ==> NoLater(tasks, target.value, i))
  {
    if k > 0 {
      TargetIsEarliest(tasks, s, today, k - 1);
      assert Eligible(tasks, s, k - 1, today) <==> Suits(tasks, s, k - 1, today);
    }
  }

  // The pending minutes of the task's day once the task has its new duration.
  function MinutesAfter(tasks: seq<Task>, i: nat, factor: real): nat
    requires i < |tasks|
  {
    DayTotal(tasks[i := tasks[i].(effectiveMinutes := Scaled(tasks[i].effectiveMinutes, factor))], tasks[i].plan, tasks[i].date)
  }

  // How an application with evidence and enough confidence, or a student's approval, ends: the earliest suitable
  // task is changed exactly if the source is fresh and the task's day has room for the new duration, and
  // otherwise the error names the first of these that fails.
  lemma {:induction false} AppliedIff(tasks: seq<Task>, p: Proposal, manual: bool, cal: Calendar, j: nat)
    requires p.hasEvidenceRefs && (manual || p.confidence >= 0.75)
    ensures
      var a := Apply(tasks, p, manual, cal);
      && (a.changed == Some(j) <==>
            exists s: nat :: SourceIsFresh(tasks, p, s) && Earliest(tasks, s, j, cal.today)
                        && MinutesAfter(tasks, j, Clamped(p.factor)) <= cal.capacity(tasks[j].student, tasks[j].date))
      && (a.changed.None? ==>
            && (a.proposal.error == Some(EVIDENCE_STALE) <==> forall s: nat :: !SourceIsFresh(tasks, p, s))
            && (a.proposal.error == Some(ELIGIBLE_TASK_NOT_FOUND) <==>
                  exists s: nat :: SourceIsFresh(tasks, p, s) && forall i: nat :: !Suits(tasks, s, i, cal.today))
            && a.proposal.error.Some?)
  {
    var a := Apply(tasks, p, manual, cal);
    forall s: nat ensures FreshSource(tasks, p) && Source(tasks, p) == Some(s) <==> SourceIsFresh(tasks, p, s) { FreshIff(tasks, p, s); }
    if FreshSource(tasks, p) {
      var s := Source(tasks, p).value;
      assert SourceIsFresh(tasks, p, s) && forall r: nat :: SourceIsFresh(tasks, p, r) ==> r == s;
      TargetIsEarliest(tasks, s, cal.today, |tasks|);
      var target := Target(tasks, s, cal.today);
      if target.Some? {
        var i := target.value;
        assert Earliest(tasks, s, i, cal.today) && forall r: nat :: Earliest(tasks, s, r, cal.today) ==> r == i;
        DayTotalAfterUpdate(tasks, i, tasks[i].(effectiveMinutes := Scaled(tasks[i].effectiveMinutes, Clamped(p.factor))), |tasks|);
      }
    }
  }
}
