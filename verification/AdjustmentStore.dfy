// The application of a minor adjustment and the decision of a proposal as they run, over the tables.
module Adjustments {
  import opened Wrappers
  import opened Rounding
  import opened AdjustmentSpec

  // The tables the services write; `changes` records which tasks each proposal changed.
  class LearningStore {
    var tasks: seq<Task>
    var proposals: seq<Proposal>
    ghost var changes: seq<seq<nat>>

    constructor (tasks: seq<Task>)
      ensures Contents() == World(tasks, [], [])
    {
      this.tasks, proposals, changes := tasks, [], [];
    }

    ghost function Contents(): World
      reads this
    {
      World(tasks, proposals, changes)
    }

    // `select(func.sum(...))` over the day.
    method SumOfDay(plan: nat, date: int) returns (total: nat)
      ensures total == DayTotal(tasks, plan, date)
    {
      total := 0;
      for k := 0 to |tasks|
        invariant total == DayTotalOfFirst(tasks, plan, date, k)
      {
        if OnDay(tasks[k], plan, date) {
          total := total + tasks[k].effectiveMinutes;
        }
      }
    }

    // The eligible task with the least date and sequence.
    method SoonestTarget(source: nat, today: int) returns (target: Option<nat>)
      requires source < |tasks|
      ensures target == Target(tasks, source, today)
    {
      target := None;
      for k := 0 to |tasks|
        invariant target == TargetOfFirst(tasks, source, today, k)
      {
        if Eligible(tasks, source, k, today) && (target.None? || Sooner(tasks[k], tasks[target.value])) {
          target := Some(k);
        }
      }
    }

    method Refuse(i: nat, manual: bool, error: ApplyError)
      requires i < |proposals|
      modifies this
      ensures tasks == old(tasks) && changes == old(changes)
      ensures proposals == old(proposals)[i := Refused(old(tasks), old(proposals)[i], manual, error).proposal]
    {
      proposals := proposals[i := proposals[i].(status := if manual then APPLY_FAILED else AWAITING_CONFIRMATION, error := Some(error))];
    }

    // `_apply_minor_proposal`.
    method ApplyMinorProposal(i: nat, manual: bool, cal: Calendar)
      requires i < |proposals| && Contents().Sized()
      modifies this
      ensures Contents() == old(Contents()).After(i, Apply(old(tasks), old(proposals)[i], manual, cal))
    {
      var p := proposals[i];
      if !p.hasEvidenceRefs || (p.confidence < CONFIDENT && !manual) {
        proposals := proposals[i := p.(status := AWAITING_CONFIRMATION, expiresAt := Some(cal.now + APPROVAL_PERIOD))];
        return;
      }
      var source := Source(tasks, p);
      if source.None? || SnapshotVersion(p.snapshot, source.value) != Some(tasks[source.value].version) {
        Refuse(i, manual, EVIDENCE_STALE);
        return;
      }
      var target := SoonestTarget(source.value, cal.today);
      if target.None? {
        Refuse(i, manual, ELIGIBLE_TASK_NOT_FOUND);
        return;
      }
      var task := tasks[target.value];
      var factor := Clamped(p.factor);
      var adjusted := Scaled(task.effectiveMinutes, factor);
      var dayTotal := SumOfDay(task.plan, task.date);
      if dayTotal - task.effectiveMinutes + adjusted > cal.capacity(task.student, task.date) {
        Refuse(i, manual, PLAN_CAPACITY_EXCEEDED);
        return;
      }
      task := task.(suggestedMinutes := adjusted, effectiveMinutes := adjusted, minMinutes := adjusted, maxMinutes := adjusted);
      if task.plannedUnits != 0 {
        task := task.(plannedUnits := Scaled(task.plannedUnits, factor));
      }
      task := task.(origin := AGENT, version := task.version + 1);
      tasks := tasks[target.value := task];
      proposals := proposals[i := p.(status := if manual then APPLIED else AUTO_COMMITTED, error := None)];
      changes := changes[i := changes[i] + [target.value]];
    }

    // `apply_minor_proposals`.
    method ApplyMinorProposals(run: nat, cal: Calendar)
      requires Contents().Sized()
      modifies this
      ensures Contents() == AutoApply(old(Contents()), run, cal, |old(proposals)|)
    {
      ghost var before := Contents();
      for k := 0 to |proposals|
        invariant Contents() == AutoApply(before, run, cal, k)
      {
        if proposals[k].run == run && proposals[k].status == PENDING {
          ApplyMinorProposal(k, false, cal);
        }
      }
    }

    // `_evidence_is_current`.
    method EvidenceIsCurrent(p: Proposal, attempts: map<nat, Attempt>) returns (current: bool)
      ensures current == AllCurrent(tasks, attempts, p)
    {
      if p.snapshot == [] {
        return false;
      }
      for i := 0 to |p.snapshot|
        invariant forall j :: 0 <= j < i ==> EvidenceCurrent(tasks, attempts, p, p.snapshot[j])
      {
        if !EvidenceCurrent(tasks, attempts, p, p.snapshot[i]) {
          return false;
        }
      }
      return true;
    }

    // `ProposalService.decide`.
    method DecideProposal(i: nat, approve: bool, attempts: map<nat, Attempt>, cal: Calendar)
      requires i < |proposals| && Contents().Sized()
      modifies this
      ensures Contents() == old(Contents()).After(i, Decide(old(tasks), attempts, old(proposals)[i], approve, cal))
    {
      var p := proposals[i];
      if p.status != AWAITING_CONFIRMATION && p.status != PENDING {
        return;
      }
      if p.expiresAt.Some? && p.expiresAt.value <= cal.now {
        proposals := proposals[i := p.(status := EXPIRED)];
        return;
      }
      if approve {
        var current := EvidenceIsCurrent(p, attempts);
        if !current {
          proposals := proposals[i := p.(status := EXPIRED, error := Some(EVIDENCE_STALE))];
          return;
        }
        proposals := proposals[i := p.(status := APPROVED)];
        ApplyMinorProposal(i, true, cal);
      } else {
        proposals := proposals[i := p.(status := REJECTED)];
      }
    }

    // `expire_proposals`.
    method ExpireProposals(now: int) returns (count: nat)
      requires Contents().Sized()
      modifies this
      ensures Contents() == old(Contents()).(proposals := ExpireAll(old(proposals), now))
    {
      count := 0;
      ghost var before := proposals;
      for k := 0 to |proposals|
        invariant tasks == old(tasks) && changes == old(changes) && |proposals| == |before|
        invariant proposals[..k] == ExpireAll(before, now)[..k] && proposals[k..] == before[k..]
      {
        assert proposals[k] == before[k];
        if Expires(proposals[k], now) {
          proposals := proposals[k := proposals[k].(status := EXPIRED)];
          count := count + 1;
        }
        assert proposals[..k + 1] == proposals[..k] + [proposals[k]];
      }
      assert proposals[..|proposals|] == proposals;
    }
  }
}
