// The database as the harness sees it, one function per transaction
// (app/infrastructure/adapters/harness_store.py, tool_ledger.py, learning_tools.py).
module StoreSpec {
  import opened Wrappers
  import opened Contracts
  import opened LeaseSpec

  // `hash` is the digest of the stored payload, as the state whose payload it is.
  datatype CheckpointRow = CheckpointRow(state: RuntimeState, token: nat, version: nat, hash: RuntimeState)

  function RowOf(st: RuntimeState, token: nat): CheckpointRow { CheckpointRow(st, token, CHECKPOINT_VERSION, st) }

  // What `load_latest` checks of the row it reads.
  predicate Intact(row: CheckpointRow, runId: string) {
    row.version == CHECKPOINT_VERSION && row.hash == row.state && row.state.identity.runId == runId
  }

  datatype LedgerStatus = STARTED | SUCCEEDED | LEDGER_FAILED | UNKNOWN

  datatype LedgerKey = LedgerKey(tool: string, key: string)

  datatype Record = Record(
    digest: Obj,
    status: LedgerStatus,
    result: Option<Obj>,
    error: Option<ErrorCode>,
    token: nat)

  datatype Proposal = Proposal(id: string, tool: string, status: string)

  // `proposals` is keyed by the idempotency key, as the table's unique constraint is.
  // `lastSaved` is not a column: it remembers the state of the most recent save by any worker.
  datatype Db = Db(
    run: RunRow,
    checkpoints: map<nat, CheckpointRow>,
    ledger: map<LedgerKey, Record>,
    proposals: map<string, Proposal>,
    lastSaved: Option<RuntimeState>)

  predicate IsLatest(table: map<nat, CheckpointRow>, step: nat) {
    step in table && forall k | k in table :: k <= step
  }

  lemma {:induction false} LatestExists(table: map<nat, CheckpointRow>)
    requires table != map[]
    ensures exists step :: IsLatest(table, step)
  {
    var k :| k in table;
    var rest := table - {k};
    assert table.Keys == rest.Keys + {k};
    if rest != map[] {
      LatestExists(rest);
      var m :| IsLatest(rest, m);
      var top := if m < k then k else m;
      assert IsLatest(table, top);
    } else {
      assert IsLatest(table, k);
    }
  }

  // The row with the highest step number.
  ghost function LatestRow(table: map<nat, CheckpointRow>): CheckpointRow
    requires table != map[]
  {
    LatestExists(table);
    var step :| IsLatest(table, step);
    table[step]
  }

  // `load_latest` after its fence and its checks: the latest row, marked as resumed.
  ghost function LoadLatest(db: Db): Option<RuntimeState> {
    if db.checkpoints == map[] then None else Some(LatestRow(db.checkpoints).state.(resumed := true))
  }

  function SaveTxn(db: Db, token: nat, now: int, st: RuntimeState): Option<Db> {
    if FencePasses(db.run, token, None, now)
    then Some(db.(checkpoints := db.checkpoints[st.loopCount := RowOf(st, token)], lastSaved := Some(st)))
    else None
  }

  datatype BeginAnswer = BeginStale | BeginMismatch | BeginExisting(record: Record) | BeginNew(record: Record)

  function BeginTxn(db: Db, token: nat, now: int, lk: LedgerKey, digest: Obj): BeginAnswer {
    if !FencePasses(db.run, token, None, now) then BeginStale
    else if lk in db.ledger then
      if db.ledger[lk].digest != digest then BeginMismatch else BeginExisting(db.ledger[lk])
    else BeginNew(Record(digest, STARTED, None, None, token))
  }

  // `_update`: rewrites status, result, error and token; the digest stays.  Rows are never deleted,
  // so past the fence the row that `begin` returned is always there.
  function UpdateTxn(
    db: Db, token: nat, now: int, lk: LedgerKey, status: LedgerStatus, result: Option<Obj>, error: Option<ErrorCode>
  ): Option<Db>
  {
    if FencePasses(db.run, token, None, now) && lk in db.ledger
    then Some(db.(ledger := db.ledger[lk := Record(db.ledger[lk].digest, status, result, error, token)]))
    else None
  }

  function ProposalResult(p: Proposal): Obj {
    map["proposal_id" := JStr(p.id), "status" := JStr(p.status)]
  }

  function ProposalId(result: Obj): Option<Json> {
    if "proposal_id" in result then Some(result["proposal_id"]) else None
  }

  function InitialStatus(tool: string): string {
    if tool == "propose_minor_adjustment" then "PENDING" else "AWAITING_CONFIRMATION"
  }

  // The commit of `propose`: an existing row of the key is kept, otherwise a row is inserted.
  function ProposeTxn(db: Db, tool: string, key: string, freshId: string): Db {
    if key in db.proposals then db
    else db.(proposals := db.proposals[key := Proposal(freshId, tool, InitialStatus(tool))])
  }

  // `proposal_reconciler`: reads without a fence.
  function ReconcileTxn(db: Db, tool: string, key: string): Option<Obj> {
    if key in db.proposals && db.proposals[key].tool == tool then Some(ProposalResult(db.proposals[key])) else None
  }
}
