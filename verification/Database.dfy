// The adapters over the shared database, as objects: the lease manager (app/harness/lease.py), the
// checkpoint store, the tool ledger and the proposal tools (app/infrastructure/adapters).
module DatabaseAdapters {
  import opened Wrappers
  import opened Contracts
  import opened LeaseSpec
  import opened StoreSpec
  import opened ToolSpec
  import opened RunnerSpec

  // The columns that the end of a run copies into its row.
  datatype RunReport = RunReport(
    loopCount: nat,
    modelCalls: nat,
    toolCalls: nat,
    inputTokens: nat,
    outputTokens: nat,
    reason: Option<TerminationReason>)

  // The rows of one agent run, shared by every worker.
  class Database {
    var created: bool
    var resumedCount: nat
    var report: RunReport
    var status: RunStatus
    var fencingToken: nat
    var leaseOwner: Option<string>
    var leaseExpiresAt: Option<int>
    var checkpoints: map<nat, CheckpointRow>
    var ledger: map<LedgerKey, Record>
    var proposals: map<string, Proposal>
    ghost var lastSaved: Option<RuntimeState>

    function Run(): RunRow reads this { RunRow(status, fencingToken, leaseOwner, leaseExpiresAt) }

    ghost function View(): Db reads this { Db(Run(), checkpoints, ledger, proposals, lastSaved) }

    // No worker saves a pending call together with a decision (ProtocolTheorems.CheckpointsAreIntact).
    ghost predicate LatestIsTidy()
      reads this
    {
      checkpoints != map[] ==> Tidy(LatestRow(checkpoints).state)
    }

    // Whatever the other workers, the heartbeat, the reviewers and the operators do between two transactions.
    method Interfere()
      modifies this
      ensures LatestIsTidy()
    {
      status, fencingToken, leaseOwner, leaseExpiresAt := *, *, *, *;
      created, resumedCount, report := *, *, *;
      ledger, proposals, lastSaved := *, *, *;
      var rows: map<nat, CheckpointRow> := *;
      checkpoints := map k | k in rows && Tidy(rows[k].state) :: rows[k];
      if checkpoints != map[] {
        LatestExists(checkpoints);
      }
    }
  }

  datatype RunLease = RunLease(owner: string, fencingToken: nat, expiresAt: int)

  class RunLeaseManager {
    const db: Database
    const owner: string
    const leaseSeconds: nat
    var lease: Option<RunLease>

    constructor (db: Database, owner: string, leaseSeconds: nat)
      ensures this.db == db && this.owner == owner && this.leaseSeconds == leaseSeconds && lease == None
    {
      this.db, this.owner, this.leaseSeconds, this.lease := db, owner, leaseSeconds, None;
    }

    method Acquire(now: int) returns (r: Answer<RunLease>)
      modifies this`lease, db
      ensures db.View() == (match AcquireTxn(old(db.Run()), owner, now, leaseSeconds)
                            case Granted(row) => old(db.View()).(run := row)
                            case Denied(_) => old(db.View()))
      ensures r.Granted? <==> AcquireTxn(old(db.Run()), owner, now, leaseSeconds).Granted?
      ensures r.Granted? ==> lease == Some(r.value) && r.value == RunLease(owner, old(db.fencingToken) + 1, now + leaseSeconds)
      ensures r.Denied? ==> lease == old(lease) && AcquireTxn(old(db.Run()), owner, now, leaseSeconds) == Denied(r.why)
    {
      if db.status == CANCEL_REQUESTED || db.status == RUN_CANCELLED {
        return Denied(RunCancelled);
      }
      if db.leaseOwner.Some? && db.leaseOwner.value != "" && db.leaseOwner.value != owner
         && db.leaseExpiresAt.Some? && db.leaseExpiresAt.value > now {
        return Denied(LeaseUnavailable);
      }
      db.fencingToken := db.fencingToken + 1;
      db.leaseOwner := Some(owner);
      db.leaseExpiresAt := Some(now + leaseSeconds);
      db.status := RUNNING;
      lease := Some(RunLease(owner, db.fencingToken, now + leaseSeconds));
      r := Granted(lease.value);
    }

    method Renew(now: int) returns (r: Answer<()>)
      requires lease.Some?
      modifies this`lease, db
      ensures var answer := RenewTxn(old(db.Run()), old(lease).value.fencingToken, old(lease).value.owner, now, leaseSeconds);
              match answer
              case Granted(row) => r == Granted(()) && db.View() == old(db.View()).(run := row)
                                   && lease == Some(old(lease).value.(expiresAt := now + leaseSeconds))
              case Denied(why) => r == Denied(why) && db.View() == old(db.View()) && lease == old(lease)
    {
      if !FencePasses(db.Run(), lease.value.fencingToken, Some(lease.value.owner), now) {
        return Denied(StaleWorker);
      }
      if db.status == CANCEL_REQUESTED {
        return Denied(RunCancelled);
      }
      db.leaseExpiresAt := Some(now + leaseSeconds);
      lease := Some(lease.value.(expiresAt := now + leaseSeconds));
      r := Granted(());
    }

    method Release()
      modifies this`lease, db
      ensures lease == None
      ensures db.View() == (if old(lease).None? then old(db.View())
                            else old(db.View()).(run := ReleaseTxn(old(db.Run()), old(lease).value.fencingToken, old(lease).value.owner)))
    {
      if lease.None? {
        return;
      }
      if db.fencingToken == lease.value.fencingToken && db.leaseOwner == Some(lease.value.owner) {
        db.leaseOwner := None;
        db.leaseExpiresAt := None;
      }
      lease := None;
    }

    method AssertActive(stateToken: nat, now: int) returns (r: Answer<()>)
      requires lease.Some?
      ensures r == ActiveTxn(db.Run(), stateToken, lease.value.fencingToken, lease.value.owner, now)
    {
      if stateToken != lease.value.fencingToken {
        return Denied(StaleWorker);
      }
      if db.status == CANCEL_REQUESTED {
        return Denied(RunCancelled);
      }
      if !FencePasses(db.Run(), lease.value.fencingToken, Some(lease.value.owner), now) {
        return Denied(StaleWorker);
      }
      r := Granted(());
    }
  }

  // What `load_latest` returns or raises.
  datatype Loading = LoadRefused | CheckpointInvalid | Loaded(state: Option<RuntimeState>)

  class DatabaseCheckpointStore {
    const db: Database
    const runId: string
    const token: nat

    constructor (db: Database, runId: string, token: nat)
      ensures this.db == db && this.runId == runId && this.token == token
    {
      this.db, this.runId, this.token := db, runId, token;
    }

    method Save(st: RuntimeState, now: int) returns (ok: bool)
      modifies db
      ensures ok <==> SaveTxn(old(db.View()), token, now, st).Some?
      ensures db.View() == (if ok then SaveTxn(old(db.View()), token, now, st).value else old(db.View()))
    {
      if !FencePasses(db.Run(), token, None, now) {
        return false;
      }
      db.checkpoints := db.checkpoints[st.loopCount := CheckpointRow(st, token, CHECKPOINT_VERSION, st)];
      db.lastSaved := Some(st);
      ok := true;
    }

    // A query over the step numbers, highest first, and the checks of the row it finds.
    method LoadLatest(now: int) returns (r: Loading)
      ensures r == (if !FencePasses(db.Run(), token, None, now) then LoadRefused
                    else if db.checkpoints == map[] then Loaded(None)
                    else if !Intact(LatestRow(db.checkpoints), runId) then CheckpointInvalid
                    else Loaded(StoreSpec.LoadLatest(db.View())))
    {
      if !FencePasses(db.Run(), token, None, now) {
        return LoadRefused;
      }
      if db.checkpoints == map[] {
        return Loaded(None);
      }
      LatestExists(db.checkpoints);
      var step :| step in db.checkpoints && forall k | k in db.checkpoints :: k <= step;
      assert IsLatest(db.checkpoints, step);
      forall k | IsLatest(db.checkpoints, k) ensures k == step { }
      var row := db.checkpoints[step];
      if row.version != CHECKPOINT_VERSION || row.hash != row.state || row.state.identity.runId != runId {
        return CheckpointInvalid;
      }
      return Loaded(Some(row.state.(resumed := true)));
    }
  }

  class DatabaseToolExecutionLedger {
    const db: Database
    const token: nat

    constructor (db: Database, token: nat)
      ensures this.db == db && this.token == token
    {
      this.db, this.token := db, token;
    }

    method Begin(lk: LedgerKey, digest: Obj, now: int) returns (r: BeginAnswer)
      modifies db
      ensures r == BeginTxn(old(db.View()), token, now, lk, digest)
      ensures db.View() == (if r.BeginNew? then old(db.View()).(ledger := old(db.ledger)[lk := r.record]) else old(db.View()))
    {
      if !FencePasses(db.Run(), token, None, now) {
        return BeginStale;
      }
      if lk in db.ledger {
        return if db.ledger[lk].digest != digest then BeginMismatch else BeginExisting(db.ledger[lk]);
      }
      db.ledger := db.ledger[lk := Record(digest, STARTED, None, None, token)];
      r := BeginNew(db.ledger[lk]);
    }

    method Update(lk: LedgerKey, status: LedgerStatus, result: Option<Obj>, error: Option<ErrorCode>, now: int)
      returns (ok: bool)
      modifies db
      ensures ok <==> UpdateTxn(old(db.View()), token, now, lk, status, result, error).Some?
      ensures db.View() == (if ok then UpdateTxn(old(db.View()), token, now, lk, status, result, error).value else old(db.View()))
    {
      if !FencePasses(db.Run(), token, None, now) || lk !in db.ledger {
        return false;
      }
      db.ledger := db.ledger[lk := db.ledger[lk].(status := status, result := result, error := error, token := token)];
      ok := true;
    }
  }

  // What the handler's transaction answers or raises.
  datatype ProposeAnswer = ProposeRefused | EvidenceRequired | EvidenceInvalid | Proposed(result: Obj)

  // The proposal tools of one run: the handler's transaction and its reconciler.
  class ProposalTools {
    const db: Database
    const token: nat

    constructor (db: Database, token: nat)
      ensures this.db == db && this.token == token
    {
      this.db, this.token := db, token;
    }

    // `propose`; `owned` says whether every piece of evidence exists and belongs to the student.
    method Propose(tool: string, key: string, arguments: Obj, owned: bool, freshId: string,
        now: int) returns (r: ProposeAnswer)
      modifies db
      ensures r.ProposeRefused? <==> !FencePasses(old(db.Run()), token, None, now)
      ensures r.EvidenceRequired? <==> !r.ProposeRefused? && key !in old(db.proposals) && !HasEvidence(arguments)
      ensures r.EvidenceInvalid? <==> !r.ProposeRefused? && key !in old(db.proposals) && HasEvidence(arguments) && !owned
      ensures db.View() == if r.Proposed? then ProposeTxn(old(db.View()), tool, key, freshId) else old(db.View())
      ensures r.Proposed? ==> key in db.proposals && r.result == ProposalResult(db.proposals[key])
    {
      if !FencePasses(db.Run(), token, None, now) {
        return ProposeRefused;
      }
      if key !in db.proposals {
        if !HasEvidence(arguments) {
          return EvidenceRequired;
        }
        if !owned {
          return EvidenceInvalid;
        }
        db.proposals := db.proposals[key := Proposal(freshId, tool, InitialStatus(tool))];
      }
      r := Proposed(ProposalResult(db.proposals[key]));
    }

    method Reconcile(tool: string, key: string) returns (found: Option<Obj>)
      ensures found == ReconcileTxn(db.View(), tool, key)
    {
      if key !in db.proposals || db.proposals[key].tool != tool {
        return None;
      }
      found := Some(ProposalResult(db.proposals[key]));
    }
  }
}
