// app/harness/lease.py: the run lease and its fencing token.
module LeaseSpec {
  import opened Wrappers

  datatype RunStatus = PENDING | RUNNING | RUN_COMPLETED | FAILED | STALLED | CANCEL_REQUESTED | RUN_CANCELLED

  // The columns of an agent run that the lease protocol reads and writes.
  datatype RunRow = RunRow(status: RunStatus, token: nat, owner: Option<string>, expires: Option<int>)

  datatype Denial = LeaseUnavailable | RunCancelled | StaleWorker

  datatype Answer<+T> = Granted(value: T) | Denied(why: Denial)

  // `_assert_run_fence`; the owner is compared only when the caller gives one.
  predicate FencePasses(row: RunRow, token: nat, owner: Option<string>, now: int) {
    && row.token == token
    && (owner.Some? ==> row.owner == owner)
    && row.expires.Some? && now < row.expires.value
  }

  predicate HeldByOther(row: RunRow, owner: string, now: int) {
    && row.owner.Some? && row.owner.value != "" && row.owner.value != owner
    && row.expires.Some? && now < row.expires.value
  }

  function AcquireTxn(row: RunRow, owner: string, now: int, leaseSeconds: nat): Answer<RunRow> {
    if row.status in {CANCEL_REQUESTED, RUN_CANCELLED} then Denied(RunCancelled)
    else if HeldByOther(row, owner, now) then Denied(LeaseUnavailable)
    else Granted(RunRow(RUNNING, row.token + 1, Some(owner), Some(now + leaseSeconds)))
  }

  function RenewTxn(row: RunRow, token: nat, owner: string, now: int, leaseSeconds: nat): Answer<RunRow> {
    if !FencePasses(row, token, Some(owner), now) then Denied(StaleWorker)
    else if row.status == CANCEL_REQUESTED then Denied(RunCancelled)
    else Granted(row.(expires := Some(now + leaseSeconds)))
  }

  function ReleaseTxn(row: RunRow, token: nat, owner: string): RunRow {
    if row.token == token && row.owner == Some(owner) then row.(owner := None, expires := None) else row
  }

  // `assert_active`: cancellation is reported before staleness.
  function ActiveTxn(row: RunRow, stateToken: nat, token: nat, owner: string, now: int): Answer<()> {
    if stateToken != token then Denied(StaleWorker)
    else if row.status == CANCEL_REQUESTED then Denied(RunCancelled)
    else if FencePasses(row, token, Some(owner), now) then Granted(())
    else Denied(StaleWorker)
  }

  // Everything that can touch one run row, each as one transaction.  `SetStatus` stands for the
  // writers of the status column: cancel requests, finalisation and the unfenced cancel mark.
  datatype LeaseOp =
    | Acquire(owner: string, now: int, seconds: nat)
    | Renew(token: nat, owner: string, now: int, seconds: nat)
    | Release(token: nat, owner: string)
    | SetStatus(status: RunStatus)
    | FencedWrite(token: nat, now: int)

  function Apply(row: RunRow, op: LeaseOp): RunRow {
    match op
    case Acquire(owner, now, seconds) =>
      (match AcquireTxn(row, owner, now, seconds) case Granted(r) => r case Denied(_) => row)
    case Renew(token, owner, now, seconds) =>
      (match RenewTxn(row, token, owner, now, seconds) case Granted(r) => r case Denied(_) => row)
    case Release(token, owner) => ReleaseTxn(row, token, owner)
    case SetStatus(status) => row.(status := status)
    case FencedWrite(_, _) => row
  }

  function ApplyAll(row: RunRow, ops: seq<LeaseOp>): RunRow
    decreases |ops|
  {
    if ops == [] then row else ApplyAll(Apply(row, ops[0]), ops[1..])
  }

  // The tokens handed out by the successful acquisitions of a history, in order.
  function Issued(row: RunRow, ops: seq<LeaseOp>): seq<nat>
    decreases |ops|
  {
    if ops == [] then []
    else
      var next := Apply(row, ops[0]);
      (if ops[0].Acquire? && AcquireTxn(row, ops[0].owner, ops[0].now, ops[0].seconds).Granted?
       then [next.token] else []) + Issued(next, ops[1..])
  }

  // The tokens stamped by the fenced writes that went through, in order.
  function Stamped(row: RunRow, ops: seq<LeaseOp>): seq<nat>
    decreases |ops|
  {
    if ops == [] then []
    else
      (if ops[0].FencedWrite? && FencePasses(row, ops[0].token, None, ops[0].now)
       then [ops[0].token] else []) + Stamped(Apply(row, ops[0]), ops[1..])
  }

  predicate StrictlyIncreasing(s: seq<nat>) { forall i, j | 0 <= i < j < |s| :: s[i] < s[j] }

  predicate NonDecreasing(s: seq<nat>) { forall i, j | 0 <= i < j < |s| :: s[i] <= s[j] }

  // Each token is issued once and every issue is above all earlier tokens, whatever the clocks read.
  lemma {:induction false} TokensIssuedOnce(row: RunRow, ops: seq<LeaseOp>)
    ensures StrictlyIncreasing(Issued(row, ops))
    ensures forall t | t in Issued(row, ops) :: row.token < t <= ApplyAll(row, ops).token
    ensures row.token <= ApplyAll(row, ops).token
    decreases |ops|
  {
    if ops != [] {
      var next := Apply(row, ops[0]);
      TokensIssuedOnce(next, ops[1..]);
      var later := Issued(next, ops[1..]);
      assert forall i | 0 <= i < |later| :: later[i] in later;
    }
  }

  // A fenced write stamps the token that the row carried, so stamps never go back.
  lemma {:induction false} StampsNeverDecrease(row: RunRow, ops: seq<LeaseOp>)
    ensures NonDecreasing(Stamped(row, ops))
    ensures forall t | t in Stamped(row, ops) :: row.token <= t <= ApplyAll(row, ops).token
    ensures row.token <= ApplyAll(row, ops).token
    decreases |ops|
  {
    if ops != [] {
      var next := Apply(row, ops[0]);
      StampsNeverDecrease(next, ops[1..]);
      var later := Stamped(next, ops[1..]);
      assert forall i | 0 <= i < |later| :: later[i] in later;
    }
  }

  // The one operation that makes a token pass the fence at `now`: a renewal in the name of the row's
  // holder, with a clock reading that still lies before the row's expiry.
  predicate Revives(row: RunRow, token: nat, op: LeaseOp, now: int) {
    && op.Renew? && op.token == token == row.token && row.owner == Some(op.owner)
    && row.expires.Some? && op.now < row.expires.value
    && row.status != CANCEL_REQUESTED
    && now < op.now + op.seconds
  }

  // One operation brings a failed token back exactly in that way, and then its clock reading is older
  // than the failure.
  lemma {:induction false} StepRevives(row: RunRow, token: nat, since: int, op: LeaseOp, now: int)
    requires token <= row.token && !FencePasses(row, token, None, since) && since <= now
    ensures FencePasses(Apply(row, op), token, None, now) <==> Revives(row, token, op, now)
    ensures Revives(row, token, op, now) ==> op.now < since
  {
  }

  lemma {:induction false} ApplyOneMore(row: RunRow, ops: seq<LeaseOp>, k: nat)
    requires k < |ops|
    ensures ApplyAll(row, ops[..k + 1]) == Apply(ApplyAll(row, ops[..k]), ops[k])
    decreases k
  {
    if k == 0 {
      assert ops[..1][1..] == ops[..0];
    } else {
      ApplyOneMore(Apply(row, ops[0]), ops[1..], k - 1);
      assert ops[..k][1..] == ops[1..][..k - 1] && ops[..k + 1][1..] == ops[1..][..k];
    }
  }

  // Does the token pass the fence at some point of the history?
  ghost predicate ComesBack(row: RunRow, token: nat, since: int, ops: seq<LeaseOp>) {
    exists n :: 0 <= n <= |ops| && FencePasses(ApplyAll(row, ops[..n]), token, None, since)
  }

  ghost predicate HasRevival(row: RunRow, token: nat, since: int, ops: seq<LeaseOp>) {
    exists k :: 0 <= k < |ops| && Revives(ApplyAll(row, ops[..k]), token, ops[k], since)
  }

  lemma {:induction false} DeadWithoutRevival(row: RunRow, token: nat, since: int, ops: seq<LeaseOp>, n: nat)
    requires token <= row.token && !FencePasses(row, token, None, since) && n <= |ops|
    requires !HasRevival(row, token, since, ops)
    ensures token <= ApplyAll(row, ops[..n]).token && !FencePasses(ApplyAll(row, ops[..n]), token, None, since)
  {
    if n > 0 {
      DeadWithoutRevival(row, token, since, ops, n - 1);
      ApplyOneMore(row, ops, n - 1);
      StepRevives(ApplyAll(row, ops[..n - 1]), token, since, ops[n - 1], since);
    }
  }

  // Over every history with arbitrary clocks: an issued token that failed the fence comes back exactly
  // when some renewal of it finds the lease still running by its own clock.
  lemma {:induction false} RevivedIffStaleRenewal(row: RunRow, token: nat, since: int, ops: seq<LeaseOp>)
    requires token <= row.token && !FencePasses(row, token, None, since)
    ensures ComesBack(row, token, since, ops) <==> HasRevival(row, token, since, ops)
  {
    if HasRevival(row, token, since, ops) {
      var k :| 0 <= k < |ops| && Revives(ApplyAll(row, ops[..k]), token, ops[k], since);
      ApplyOneMore(row, ops, k);
      assert FencePasses(ApplyAll(row, ops[..k + 1]), token, None, since);
    } else {
      forall n | 0 <= n <= |ops| ensures !FencePasses(ApplyAll(row, ops[..n]), token, None, since) {
        DeadWithoutRevival(row, token, since, ops, n);
      }
    }
  }

  // No renewal of the token reads a clock from before `since`; nothing is asked of other operations.
  predicate RenewedFrom(ops: seq<LeaseOp>, token: nat, since: int) {
    forall op | op in ops :: op.Renew? && op.token == token ==> since <= op.now
  }

  // An issued token that fails the fence once fails it for ever, as long as its own renewals use no
  // clock reading from before the failure.
  lemma {:induction false} FailedTokenStaysDead(row: RunRow, token: nat, since: int, ops: seq<LeaseOp>, now: int)
    requires token <= row.token && !FencePasses(row, token, None, since)
    requires RenewedFrom(ops, token, since) && since <= now
    ensures !FencePasses(ApplyAll(row, ops), token, None, now)
    decreases |ops|
  {
    if ops != [] {
      var next := Apply(row, ops[0]);
      assert ops[0] in ops && forall op | op in ops[1..] :: op in ops;
      StepRevives(row, token, since, ops[0], since);
      FailedTokenStaysDead(next, token, since, ops[1..], now);
    }
  }

  // It happens: `renew` reads the clock before it waits for the row lock.  Any lease, any failure after its
  // expiry, and a renewal that read the clock just before that expiry and lasts beyond the failure.
  lemma {:induction false} StaleClockRevivesToken(row: RunRow, since: int, seconds: nat)
    requires row.owner.Some? && row.expires.Some? && row.expires.value <= since
    requires row.status != CANCEL_REQUESTED && since < row.expires.value - 1 + seconds
    ensures
      var late := Renew(row.token, row.owner.value, row.expires.value - 1, seconds);
      !FencePasses(row, row.token, None, since) && ComesBack(row, row.token, since, [late])
  {
    var late := Renew(row.token, row.owner.value, row.expires.value - 1, seconds);
    assert [late][..0] == [] && Revives(ApplyAll(row, [late][..0]), row.token, [late][0], since);
    RevivedIffStaleRenewal(row, row.token, since, [late]);
  }

  // Two workers that pass the fence on the same row hold the same token.
  lemma {:induction false} OneTokenPasses(row: RunRow, t1: nat, t2: nat, now1: int, now2: int)
    requires FencePasses(row, t1, None, now1) && FencePasses(row, t2, None, now2)
    ensures t1 == t2 == row.token
  {
  }

  // ---- Who gets the lease ------------------------------------------------------------------

  predicate Cancelled(row: RunRow) { row.status == CANCEL_REQUESTED || row.status == RUN_CANCELLED }

  // Some other worker is still behind the fence of the row's token.
  ghost predicate LiveElsewhere(row: RunRow, owner: string, now: int) {
    exists other: string :: other != owner && other != "" && FencePasses(row, row.token, Some(other), now)
  }

  // An acquisition is refused exactly while the run is cancelled or another worker's lease is live; a granted
  // one passes the fence under the next token exactly until its own time is up.
  lemma {:induction false} AcquiredUnlessLiveElsewhere(row: RunRow, owner: string, now: int, seconds: nat)
    ensures AcquireTxn(row, owner, now, seconds) == Denied(RunCancelled) <==> Cancelled(row)
    ensures AcquireTxn(row, owner, now, seconds) == Denied(LeaseUnavailable) <==> !Cancelled(row) && LiveElsewhere(row, owner, now)
    ensures AcquireTxn(row, owner, now, seconds) != Denied(StaleWorker)
    ensures AcquireTxn(row, owner, now, seconds).Granted? ==>
              var after := AcquireTxn(row, owner, now, seconds).value;
              && after.token == row.token + 1 && after.status == RUNNING
              && forall t :: FencePasses(after, after.token, Some(owner), t) <==> t < now + seconds
  {
    if row.owner.Some? && row.owner.value != owner && row.owner.value != "" && row.expires.Some? && row.expires.value > now {
      assert FencePasses(row, row.token, Some(row.owner.value), now);
    }
  }

  // What ends a live lease before its time: its own release, a granted acquisition, or its own renewal for a
  // shorter time.
  predicate Ends(row: RunRow, token: nat, op: LeaseOp, now: int)
    requires row.expires.Some?
  {
    match op
    case Acquire(owner, at, _) =>
      !Cancelled(row) && (row.owner.None? || row.owner.value == "" || row.owner.value == owner || row.expires.value <= at)
    case Renew(t, owner, at, seconds) =>
      && t == token && row.owner == Some(owner) && at < row.expires.value && row.status != CANCEL_REQUESTED
      && at + seconds <= now
    case Release(t, owner) => t == token && row.owner == Some(owner)
    case SetStatus(_) => false
    case FencedWrite(_, _) => false
  }

  lemma {:induction false} LiveUnlessEnded(row: RunRow, token: nat, op: LeaseOp, now: int)
    requires FencePasses(row, token, None, now)
    ensures FencePasses(Apply(row, op), token, None, now) <==> !Ends(row, token, op, now)
  {
  }

  // ---- From one grant to the next ----------------------------------------------------------

  predicate GrantedAt(row: RunRow, ops: seq<LeaseOp>, k: nat)
    requires k < |ops|
  {
    ops[k].Acquire? && AcquireTxn(ApplyAll(row, ops[..k]), ops[k].owner, ops[k].now, ops[k].seconds).Granted?
  }

  // Nothing was granted after the grant at `i` and before `j`.
  predicate LastGrant(row: RunRow, ops: seq<LeaseOp>, i: nat, j: nat)
    requires i < j <= |ops|
  {
    GrantedAt(row, ops, i) && forall k :: i < k < j ==> !GrantedAt(row, ops, k)
  }

  // The holder of the grant at `i` releases it before `j`.
  predicate ReleasedBetween(row: RunRow, ops: seq<LeaseOp>, i: nat, j: nat)
    requires i < j <= |ops| && ops[i].Acquire?
  {
    exists k :: i < k < j && ops[k] == Release(ApplyAll(row, ops[..i]).token + 1, ops[i].owner)
  }

  // Until when the grant at `i` lasts at `j`, as last renewed.
  function LeaseEnd(row: RunRow, ops: seq<LeaseOp>, i: nat, j: nat): int
    requires i < j <= |ops| && ops[i].Acquire?
  {
    if j == i + 1 then ops[i].now + ops[i].seconds
    else
      var op := ops[j - 1];
      if op.Renew? && RenewTxn(ApplyAll(row, ops[..j - 1]), op.token, op.owner, op.now, op.seconds).Granted?
      then op.now + op.seconds
      else LeaseEnd(row, ops, i, j - 1)
  }

  // The row between two grants: the holder's, or nobody's once it was released.
  lemma {:induction false} RowOfGrant(row: RunRow, ops: seq<LeaseOp>, i: nat, j: nat)
    requires i < j <= |ops| && LastGrant(row, ops, i, j)
    ensures
      var at := ApplyAll(row, ops[..j]);
      && at.token == ApplyAll(row, ops[..i]).token + 1
      && if ReleasedBetween(row, ops, i, j) then at.owner.None? && at.expires.None?
         else at.owner == Some(ops[i].owner) && at.expires == Some(LeaseEnd(row, ops, i, j))
    decreases j
  {
    ApplyOneMore(row, ops, j - 1);
    if j > i + 1 {
      RowOfGrant(row, ops, i, j - 1);
      assert !GrantedAt(row, ops, j - 1);
      assert ReleasedBetween(row, ops, i, j) <==>
        ReleasedBetween(row, ops, i, j - 1) || ops[j - 1] == Release(ApplyAll(row, ops[..i]).token + 1, ops[i].owner);
    }
  }

  // Over every history: of two successive grants to different workers, the later one comes when the earlier
  // lease, as last renewed, is over by the later worker's clock, or has been released; and then it does come.
  lemma {:induction false} NextGrantWaits(row: RunRow, ops: seq<LeaseOp>, i: nat, j: nat)
    requires i < j < |ops| && LastGrant(row, ops, i, j) && ops[j].Acquire?
    requires ops[j].owner != ops[i].owner && ops[i].owner != "" && !Cancelled(ApplyAll(row, ops[..j]))
    ensures GrantedAt(row, ops, j) <==> ReleasedBetween(row, ops, i, j) || LeaseEnd(row, ops, i, j) <= ops[j].now
  {
    RowOfGrant(row, ops, i, j);
  }
}
