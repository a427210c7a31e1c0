// app/workers/tasks.py and app/workers/dispatcher.py as they run: the transactions over the table of jobs.
module JobWorkers {
  import opened Wrappers
  import opened JobSpec

  // The table of background jobs and the queue of deliveries, as (row, attempt) pairs.
  class JobTable {
    var rows: seq<Job>
    var deliveries: seq<(nat, nat)>

    constructor (rows: seq<Job>)
      ensures this.rows == rows && deliveries == []
    {
      this.rows := rows;
      deliveries := [];
    }

    // The rows and deliveries after the first `k` rows were looked at, with `limit` dispatches allowed.
    static function DispatchFirst(rows: seq<Job>, now: int, limit: nat, k: nat): (seq<Job>, seq<(nat, nat)>)
      requires k <= |rows|
    {
      if k == 0 then ([], [])
      else
        var (done, sent) := DispatchFirst(rows, now, limit, k - 1);
        if |sent| < limit && Dispatchable(rows[k - 1], now)
        then (done + [Dispatch(rows[k - 1], now)], sent + [(k - 1, rows[k - 1].attemptCount + 1)])
        else (done + [rows[k - 1]], sent)
    }

    // `dispatch_once`: the loop marks what it enqueues, so a second round sends nothing twice.
    method DispatchOnce(now: int) returns (count: nat)
      modifies this
      ensures rows == DispatchFirst(old(rows), now, 100, |old(rows)|).0
      ensures deliveries == old(deliveries) + DispatchFirst(old(rows), now, 100, |old(rows)|).1
      ensures count == |DispatchFirst(old(rows), now, 100, |old(rows)|).1|
    {
      count := 0;
      ghost var before, sent := rows, deliveries;
      for k := 0 to |rows|
        invariant |rows| == |before| && rows[k..] == before[k..]
        invariant rows[..k] == DispatchFirst(before, now, 100, k).0
        invariant deliveries == sent + DispatchFirst(before, now, 100, k).1
        invariant count == |DispatchFirst(before, now, 100, k).1|
      {
        var job := rows[k];
        assert job == before[k];
        if count < 100 && Dispatchable(job, now) {
          deliveries := deliveries + [(k, job.attemptCount + 1)];
          rows := rows[k := job.(dispatchedAt := Some(now))];
          count := count + 1;
        }
        assert rows[..k + 1] == rows[..k] + [rows[k]];
        assert rows[k + 1..] == before[k + 1..];
      }
      assert rows[..|rows|] == rows;
    }

    // The first transaction of `execute_job`.
    method ClaimJob(i: nat, now: int) returns (claimed: bool)
      requires i < |rows|
      modifies this
      ensures rows == old(rows)[i := Claim(old(rows)[i], now)] && deliveries == old(deliveries)
      ensures claimed == Claims(old(rows)[i], now)
    {
      var job := rows[i];
      if Terminal(job.status) || job.status == RUNNING {
        return false;
      }
      if job.status == RETRY_WAIT && job.nextRetryAt.Some? && job.nextRetryAt.value > now {
        return false;
      }
      job := job.(status := RUNNING, startedAt := Some(now));
      job := job.(attemptCount := job.attemptCount + 1, nextRetryAt := None);
      if job.proposal == Some(APPROVED) {
        job := job.(proposal := Some(APPLYING));
      }
      rows := rows[i := job];
      claimed := true;
    }

    // `_handle_failure`.
    method HandleJobFailure(i: nat, transient: bool, now: int, delay: nat)
      requires i < |rows|
      modifies this
      ensures rows == old(rows)[i := HandleFailure(old(rows)[i], transient, now, delay)] && deliveries == old(deliveries)
    {
      var job := rows[i];
      if transient && job.attemptCount < job.maxAttempts {
        var retryAt := now + delay;
        job := job.(status := RETRY_WAIT, nextRetryAt := Some(retryAt), availableAt := retryAt, dispatchedAt := None);
      } else {
        job := job.(status := if transient then DEAD_LETTER else FAILED);
        job := job.(proposal := MarkFailed(job.proposal));
      }
      rows := rows[i := job];
    }

    // `reconcile_stale_jobs`: every stale row, and no other, is retried or given up.
    method ReconcileStaleJobs(now: int, seconds: nat, leases: seq<Option<int>>) returns (reconciled: nat)
      requires |leases| == |rows|
      modifies this
      ensures |rows| == |old(rows)| && deliveries == old(deliveries)
      ensures forall i :: 0 <= i < |rows| ==> rows[i] == Reconcile(old(rows)[i], now, seconds, leases[i])
      ensures reconciled == |set i | 0 <= i < |leases| && Stale(old(rows)[i], now, seconds, leases[i])|
    {
      reconciled := 0;
      ghost var before := rows;
      ghost var seen: set<int> := {};
      for k := 0 to |rows|
        invariant |rows| == |before| && deliveries == old(deliveries)
        invariant forall i :: 0 <= i < k ==> rows[i] == Reconcile(before[i], now, seconds, leases[i])
        invariant forall i :: k <= i < |rows| ==> rows[i] == before[i]
        invariant seen == (set i | 0 <= i < k && Stale(before[i], now, seconds, leases[i])) && reconciled == |seen|
      {
        var job := rows[k];
        if Stale(job, now, seconds, leases[k]) {
          if job.attemptCount >= job.maxAttempts {
            rows := rows[k := job.(status := DEAD_LETTER, proposal := MarkFailed(job.proposal))];
          } else {
            rows := rows[k := job.(status := RETRY_WAIT, nextRetryAt := Some(now), availableAt := now, dispatchedAt := None)];
          }
          assert (set i | 0 <= i < k + 1 && Stale(before[i], now, seconds, leases[i])) == seen + {k};
          seen := seen + {k};
          reconciled := reconciled + 1;
        } else {
          assert (set i | 0 <= i < k + 1 && Stale(before[i], now, seconds, leases[i])) == seen;
        }
      }
    }
  }

  // A row that was dispatched is not dispatchable again at any later time until a retry clears the mark.
  lemma {:induction false} DispatchIsOnce(rows: seq<Job>, now: int, limit: nat, k: nat, later: int)
    requires k <= |rows|
    ensures
      var (done, sent) := JobTable.DispatchFirst(rows, now, limit, k);
      && |done| == k && |sent| <= limit
      && (forall s :: s in sent ==> s.0 < k && !Dispatchable(done[s.0], later) && s.1 == rows[s.0].attemptCount + 1)
      && (|sent| < limit ==> forall i :: 0 <= i < k ==> !Dispatchable(done[i], now))
  {
    if k > 0 { DispatchIsOnce(rows, now, limit, k - 1, later); }
  }
}
