/**
 What the claim lease adds when nobody outlives it: one attempt in flight per row, no way back from
 SENT, and a bounded, accounted backoff.
 */
module PdpLease {
  import opened Prelude
  import opened Lifecycle
  import opened Pdp
  import opened PdpSafety

  /** A step and the moment it happens. */
  datatype Event = Event(at: Time, step: Step)

  predicate InLease(a: Attempt, at: Time) {
    a.snapshot.claimedAt.Some? && at <= a.snapshot.claimedAt.value + CLAIM_LEASE_MS
  }

  /**
   Time moves forward, clocks agree, attempts act within their lease and hear what they committed, and
   only parked rows are retried.
   */
  predicate Disciplined(w: World, clock: Time, e: Event) {
    && clock <= e.at
    && Enabled(w, e.step)
    && match e.step
       case Claim(_, _, _, now) => now == e.at
       case Begin(t, now) => now == e.at && t in w.attempts && InLease(w.attempts[t], e.at)
       case Send(t, _, _) => t in w.attempts && InLease(w.attempts[t], e.at)
       case Fail(t, _) => t in w.attempts && InLease(w.attempts[t], e.at)
       case RecordSent(t, heard) => heard && t in w.attempts && InLease(w.attempts[t], e.at)
       case RecordFailure(t, _) => t in w.attempts && InLease(w.attempts[t], e.at)
       case Requeue(t, _) => t in w.retries && w.retries[t] in w.rows && w.rows[w.retries[t]].state == RowState.FAILED
       case _ => true
  }

  predicate Sent(row: Row) {
    row.state == SENT || row.state == ACKNOWLEDGED
  }

  predicate Live(w: World, t: TaskId, clock: Time) {
    t in w.attempts && InLease(w.attempts[t], clock)
  }

  /** While an attempt's lease runs, its snapshot is the row, and the row is still waiting to be sent. */
  ghost predicate Holds(w: World, t: TaskId)
    requires t in w.attempts
  {
    var a := w.attempts[t];
    a.row in w.rows && w.rows[a.row] == a.snapshot && a.snapshot.state == PENDING
  }

  ghost predicate LeaseInv(w: World, clock: Time) {
    && Inv(w)
    && (forall t :: Live(w, t, clock) ==> Holds(w, t))
    && (forall t, u :: Live(w, t, clock) && Live(w, u, clock) && w.attempts[t].row == w.attempts[u].row ==> t == u)
    && (forall r :: r in w.rows ==> (w.rows[r].externalId.Some? <==> Sent(w.rows[r])))
  }

  lemma LeaseKnows(w: World, clock: Time)
    requires LeaseInv(w, clock)
    ensures Inv(w)
  {}

  lemma LaterIsFewer(w: World, clock: Time, at: Time)
    requires LeaseInv(w, clock) && clock <= at
    ensures LeaseInv(w, at)
  {
    hide Inv, Holds, Sent;
    forall t | Live(w, t, at) ensures Live(w, t, clock) {}
  }

  /** Steps that change no row and whose attempts keep their row and snapshot. */
  lemma AsideKeepsLease(w: World, v: World, at: Time)
    requires LeaseInv(w, at) && Inv(v) && LeftAlone(w, v)
    ensures LeaseInv(v, at)
  {
    hide Inv, Sent;
    forall t | Live(v, t, at) ensures Live(w, t, at) {}
  }

  /** Steps that write one row no surviving live attempt is working on. */
  lemma RowWriteKeepsLease(w: World, v: World, at: Time, r: RowId)
    requires LeaseInv(w, at) && Inv(v) && r in v.rows
    requires v.rows == w.rows[r := v.rows[r]] && (v.rows[r].externalId.Some? <==> Sent(v.rows[r]))
    requires forall t :: t in v.attempts ==> t in w.attempts && v.attempts[t] == w.attempts[t]
    requires forall t :: Live(v, t, at) ==> v.attempts[t].row != r
    ensures LeaseInv(v, at)
  {
    hide Inv, Sent;
    forall t | Live(v, t, at) ensures Live(w, t, at) && Holds(v, t) {
      assert Live(w, t, at) && Holds(w, t);
    }
  }

  lemma ClaimKeepsLease(w: World, at: Time, t: TaskId, r: RowId, worker: WorkerId)
    requires LeaseInv(w, at) && CanClaim(w, t, r, at)
    ensures LeaseInv(AfterClaim(w, t, r, worker, at), at)
  {
    hide *;
    var v := AfterClaim(w, t, r, worker, at);
    LeaseKnows(w, at);
    ClaimKeepsInv(w, t, r, worker, at);
    ClaimedHolds(w, t, r, worker, at);
    NobodyHoldsDue(w, at, r);
    OthersHoldOn(w, v, at, t, r);
    NamesAreSent(w, at);
    LeaseFrom(v, at);
  }

  lemma ClaimedHolds(w: World, t: TaskId, r: RowId, worker: WorkerId, at: Time)
    requires CanClaim(w, t, r, at)
    ensures var v := AfterClaim(w, t, r, worker, at);
            && r in w.rows && Due(w.rows[r], at)
            && r in v.rows && v.rows == w.rows[r := v.rows[r]]
            && t in v.attempts && v.attempts[t].row == r && Holds(v, t)
            && (forall u :: u in v.attempts && u != t ==> u in w.attempts && v.attempts[u] == w.attempts[u])
            && (forall q :: q in v.rows ==> && q in w.rows
                                            && v.rows[q].externalId == w.rows[q].externalId
                                            && (Sent(v.rows[q]) <==> Sent(w.rows[q])))
  {}

  lemma NamesAreSent(w: World, at: Time)
    requires LeaseInv(w, at)
    ensures forall q :: q in w.rows ==> (w.rows[q].externalId.Some? <==> Sent(w.rows[q]))
  {}

  lemma LeaseFrom(v: World, at: Time)
    requires Inv(v)
    requires forall t :: Live(v, t, at) ==> Holds(v, t)
    requires forall t, u :: Live(v, t, at) && Live(v, u, at) && v.attempts[t].row == v.attempts[u].row ==> t == u
    requires forall r :: r in v.rows ==> (v.rows[r].externalId.Some? <==> Sent(v.rows[r]))
    ensures LeaseInv(v, at)
  {}

  /** A new claim on `r` leaves the other attempts holding their rows. */
  lemma OthersHoldOn(w: World, v: World, at: Time, t: TaskId, r: RowId)
    requires LeaseInv(w, at) && r in v.rows && v.rows == w.rows[r := v.rows[r]]
    requires forall u :: Live(w, u, at) ==> w.attempts[u].row != r
    requires forall u :: u in v.attempts && u != t ==> u in w.attempts && v.attempts[u] == w.attempts[u]
    ensures forall u :: Live(v, u, at) && u != t ==> Live(w, u, at) && Holds(v, u)
    ensures forall s, u :: Live(v, s, at) && Live(v, u, at) && s != t && u != t && v.attempts[s].row == v.attempts[u].row ==> s == u
    ensures forall u :: Live(v, u, at) && u != t ==> v.attempts[u].row != r
  {
    hide Inv;
    forall u | Live(v, u, at) && u != t ensures Live(w, u, at) && Holds(v, u) {
      assert Live(w, u, at) && Holds(w, u);
    }
  }

  lemma NobodyHoldsDue(w: World, at: Time, r: RowId)
    requires LeaseInv(w, at) && r in w.rows && Due(w.rows[r], at)
    ensures forall t :: Live(w, t, at) ==> w.attempts[t].row != r
  {
    hide Inv, Sent;
    forall t | Live(w, t, at) ensures w.attempts[t].row != r {
      assert Holds(w, t);
    }
  }

  lemma OnlyOwnAttempt(w: World, at: Time, t: TaskId)
    requires LeaseInv(w, at) && Live(w, t, at)
    ensures Holds(w, t)
    ensures forall u :: Live(w, u, at) && u != t ==> w.attempts[u].row != w.attempts[t].row
  {
    hide Inv;
  }

  lemma NobodyHolds(w: World, at: Time, r: RowId)
    requires LeaseInv(w, at) && r in w.rows && (w.rows[r].state != PENDING || w.rows[r].externalId.Some?)
    ensures forall t :: Live(w, t, at) ==> w.attempts[t].row != r
  {
    hide Inv;
    forall t | Live(w, t, at) ensures w.attempts[t].row != r {
      assert Holds(w, t);
    }
  }

  lemma RecordSentKeepsLease(w: World, at: Time, t: TaskId)
    requires LeaseInv(w, at) && CanRecordSent(w, t) && InLease(w.attempts[t], at)
    ensures LeaseInv(AfterRecordSent(w, t, true), at)
  {
    var v := AfterRecordSent(w, t, true);
    LeaseKnows(w, at);
    RecordSentKeepsInv(w, t, true);
    OnlyOwnAttempt(w, at, t);
    hide Inv, LeaseInv, Holds;
    forall u | Live(v, u, at) ensures v.attempts[u].row != w.attempts[t].row {
      assert Live(w, u, at);
    }
    RowWriteKeepsLease(w, v, at, w.attempts[t].row);
  }

  lemma RecordFailureKeepsLease(w: World, at: Time, t: TaskId, jitter: nat)
    requires LeaseInv(w, at) && CanRecordFailure(w, t, jitter) && InLease(w.attempts[t], at)
    ensures LeaseInv(AfterRecordFailure(w, t, jitter), at)
  {
    var v := AfterRecordFailure(w, t, jitter);
    var r := w.attempts[t].row;
    LeaseKnows(w, at);
    RecordFailureKeepsInv(w, t, jitter);
    OnlyOwnAttempt(w, at, t);
    UnsentIsUnnamed(w, at, r);
    hide Inv, LeaseInv, Holds;
    forall u | Live(v, u, at) ensures v.attempts[u].row != r {
      assert Live(w, u, at);
    }
    RowWriteKeepsLease(w, v, at, r);
  }

  lemma RequeueKeepsLease(w: World, at: Time, t: TaskId, now: Time)
    requires LeaseInv(w, at) && CanRequeue(w, t) && w.rows[w.retries[t]].state == RowState.FAILED
    ensures LeaseInv(AfterRequeue(w, t, now), at)
  {
    hide *;
    var v := AfterRequeue(w, t, now);
    RequeuedRow(w, t, now);
    LeaseKnows(w, at);
    RequeueKeepsInv(w, t, now);
    NobodyHolds(w, at, w.retries[t]);
    UnsentIsUnnamed(w, at, w.retries[t]);
    SameAttemptsLive(w, v, at);
    RowWriteKeepsLease(w, v, at, w.retries[t]);
  }

  lemma RequeuedRow(w: World, t: TaskId, now: Time)
    requires CanRequeue(w, t)
    ensures var v := AfterRequeue(w, t, now);
            && t in w.retries && w.retries[t] in w.rows && w.retries[t] in v.rows
            && v.attempts == w.attempts
            && v.rows == w.rows[w.retries[t] := v.rows[w.retries[t]]]
            && v.rows[w.retries[t]].externalId == w.rows[w.retries[t]].externalId
            && !Sent(v.rows[w.retries[t]])
            && (w.rows[w.retries[t]].state == RowState.FAILED ==> !Sent(w.rows[w.retries[t]]))
  {}

  lemma SameAttemptsLive(w: World, v: World, at: Time)
    requires v.attempts == w.attempts
    ensures forall t :: Live(v, t, at) <==> Live(w, t, at)
  {}

  lemma UnsentIsUnnamed(w: World, at: Time, r: RowId)
    requires LeaseInv(w, at) && r in w.rows
    ensures w.rows[r].externalId.Some? <==> Sent(w.rows[r])
  {}

  lemma InsertKeepsLease(w: World, at: Time, t: TaskId, r: RowId, now: Time)
    requires LeaseInv(w, at) && CanInsert(w, t, r)
    ensures LeaseInv(AfterInsert(w, t, r, now), at)
  {
    var v := AfterInsert(w, t, r, now);
    LeaseKnows(w, at);
    InsertKeepsInv(w, t, r, now);
    hide Inv, KeyTaken;
    forall u | Live(v, u, at) ensures v.attempts[u].row != r {
      assert Live(w, u, at) && Holds(w, u);
    }
    RowWriteKeepsLease(w, v, at, r);
  }

  /** Under the discipline a matched row is always SENT or ACKNOWLEDGED: the rejection branch parks nothing. */
  lemma MatchedIsSent(w: World, at: Time, t: TaskId)
    requires LeaseInv(w, at) && CanApply(w, t)
    ensures Sent(w.rows[w.polls[t].matched.value.row])
  {
    LeaseKnows(w, at);
    PollIsOk(w, t);
    UnsentIsUnnamed(w, at, w.polls[t].matched.value.row);
  }

  lemma ApplyWritesOneRow(w: World, t: TaskId)
    requires CanApply(w, t)
    ensures var r := w.polls[t].matched.value.row;
            var v := AfterApply(w, t);
            && v.rows.Keys == w.rows.Keys
            && v.rows == w.rows[r := v.rows[r]]
            && v.rows[r].externalId == w.rows[r].externalId
            && (Sent(w.rows[r]) ==> Sent(v.rows[r]))
            && (w.rows[r].state == ACKNOWLEDGED ==> v.rows[r].state == ACKNOWLEDGED)
            && v.attempts == w.attempts
  {
    hide AfterNewStatus;
    if ReportedStatus(w, t) !in w.history {
      NewStatusWritesOneRow(w, t);
    }
  }

  lemma NewStatusWritesOneRow(w: World, t: TaskId)
    requires CanApply(w, t)
    ensures var m := w.polls[t].matched.value;
            var v := AfterNewStatus(w, t);
            && v.rows == w.rows[m.row := AppliedRow(w.rows[m.row], m.seen, Head(w.polls[t]).code)]
            && v.attempts == w.attempts
  {}

  lemma ApplyKeepsLease(w: World, at: Time, t: TaskId)
    requires LeaseInv(w, at) && CanApply(w, t)
    ensures LeaseInv(AfterApply(w, t), at)
  {
    var v := AfterApply(w, t);
    var r := w.polls[t].matched.value.row;
    LeaseKnows(w, at);
    ApplyKeepsInv(w, t);
    MatchedIsSent(w, at, t);
    UnsentIsUnnamed(w, at, r);
    NobodyHolds(w, at, r);
    ApplyWritesOneRow(w, t);
    hide Inv, LeaseInv, AfterApply, Sent;
    RowWriteKeepsLease(w, v, at, r);
  }

  predicate WritesRows(step: Step) {
    step.Insert? || step.Claim? || step.RecordSent? || step.RecordFailure? || step.Requeue? || step.ApplyStatus?
  }

  /** Same rows, and no attempt but the ones there were, on the same rows with the same snapshots. */
  ghost predicate LeftAlone(w: World, v: World) {
    && v.rows == w.rows
    && forall t :: t in v.attempts ==>
         && t in w.attempts
         && v.attempts[t].row == w.attempts[t].row
         && v.attempts[t].snapshot == w.attempts[t].snapshot
  }

  lemma LeavesRows(w: World, step: Step)
    requires Enabled(w, step) && !WritesRows(step)
    ensures LeftAlone(w, Next(w, step))
  {
    match step
    case Begin(t, now) => assert LeftAlone(w, AfterBegin(w, t, now));
    case Send(t, receipt, delivered) => assert LeftAlone(w, AfterSend(w, t, receipt, delivered));
    case Fail(t, permanent) => assert LeftAlone(w, AfterFail(w, t, permanent));
    case Drop(t) => assert LeftAlone(w, AfterDrop(w, t));
    case MatchStatus(t, found) => MatchLeavesRows(w, t, found);
    case _ => RestLeavesRows(w, step);
  }

  lemma MatchLeavesRows(w: World, t: TaskId, found: Option<RowId>)
    requires CanMatch(w, t, found)
    ensures LeftAlone(w, AfterMatch(w, t, found))
  {}

  lemma RestLeavesRows(w: World, step: Step)
    requires Enabled(w, step)
    requires || step.Issue? || step.Receive? || step.SaveConnection? || step.ReadInvoice? || step.ReadConnection?
             || step.ReadRow? || step.StartPoll? || step.Fetch? || step.CommitCursor? || step.Publish?
    ensures LeftAlone(w, Next(w, step))
  {
    hide CanIssue, CanSaveConnection, CanReadInvoice, CanReadConnection, CanReadRow, CanStartPoll, CanFetch, CanCommit;
    var v := Next(w, step);
    assert v.rows == w.rows && v.attempts == w.attempts;
  }

  lemma EventKeepsLease(w: World, clock: Time, e: Event)
    requires LeaseInv(w, clock) && Disciplined(w, clock, e)
    ensures LeaseInv(Next(w, e.step), e.at)
  {
    hide Inv, LeaseInv, CanInsert, CanClaim, CanRecordSent, CanRecordFailure, CanRequeue, CanApply, InLease;
    LaterIsFewer(w, clock, e.at);
    match e.step
    case Insert(t, r, now) => InsertKeepsLease(w, e.at, t, r, now);
    case Claim(t, r, worker, now) => ClaimKeepsLease(w, e.at, t, r, worker);
    case RecordSent(t, _) => RecordSentKeepsLease(w, e.at, t);
    case RecordFailure(t, jitter) => RecordFailureKeepsLease(w, e.at, t, jitter);
    case Requeue(t, now) => RequeueKeepsLease(w, e.at, t, now);
    case ApplyStatus(t) => ApplyKeepsLease(w, e.at, t);
    case _ => OtherKeepsLease(w, e.at, e.step);
  }

  lemma OtherKeepsLease(w: World, at: Time, step: Step)
    requires LeaseInv(w, at) && Enabled(w, step) && !WritesRows(step)
    ensures LeaseInv(Next(w, step), at)
  {
    hide *;
    LeaseKnows(w, at);
    StepKeepsInv(w, step);
    LeavesRows(w, step);
    AsideKeepsLease(w, Next(w, step), at);
  }

  // ---------------------------------------------------------------------- no way back

  /** In any run at all, a step takes a sent row back exactly when it records a failure on it or requeues it. */
  lemma OnlyStaleWritesRevert(w: World, step: Step, r: RowId)
    requires Inv(w) && Enabled(w, step) && r in w.rows && Sent(w.rows[r])
    ensures r in Next(w, step).rows
    ensures !Sent(Next(w, step).rows[r]) <==>
            || (step.RecordFailure? && w.attempts[step.task].row == r)
            || (step.Requeue? && w.retries[step.task] == r)
  {
    hide Inv, Try;
    if !WritesRows(step) {
      LeavesRows(w, step);
    } else if step.ApplyStatus? {
      AppliedKeepsSent(w, step.task, r);
    } else if step.RecordFailure? || step.Requeue? || step.RecordSent? {
      OwnWrite(w, step);
      if step.RecordFailure? || step.RecordSent? {
        WriteKeepsOthers(w, step, w.attempts[step.task].row, r);
      } else {
        WriteKeepsOthers(w, step, w.retries[step.task], r);
      }
    } else {
      WriteKeepsSent(w, step, r);
    }
  }

  /** What the three writers leave of the row they write. */
  lemma OwnWrite(w: World, step: Step)
    requires Enabled(w, step) && (step.RecordFailure? || step.Requeue? || step.RecordSent?)
    ensures step.Requeue? ==> step.task in w.retries
    ensures !step.Requeue? ==> step.task in w.attempts
    ensures var q := if step.Requeue? then w.retries[step.task] else w.attempts[step.task].row;
            q in Next(w, step).rows && (Sent(Next(w, step).rows[q]) <==> step.RecordSent?)
  {}

  lemma WriteKeepsOthers(w: World, step: Step, q: RowId, r: RowId)
    requires Enabled(w, step) && (step.RecordFailure? || step.Requeue? || step.RecordSent?) && r in w.rows
    requires if step.Requeue? then step.task in w.retries && w.retries[step.task] == q
             else step.task in w.attempts && w.attempts[step.task].row == q
    ensures r in Next(w, step).rows && (r != q ==> Next(w, step).rows[r] == w.rows[r])
  {}

  ghost predicate ClaimedPending(w: World) {
    forall t :: t in w.attempts ==> w.attempts[t].snapshot.state == PENDING
  }

  lemma StepKeepsClaimedPending(w: World, step: Step)
    requires ClaimedPending(w) && Enabled(w, step)
    ensures ClaimedPending(Next(w, step))
  {
    hide CanIssue, CanSaveConnection, CanReadInvoice, CanReadConnection, CanInsert, CanReadRow, CanRequeue, CanStartPoll,
         CanFetch, CanMatch, CanApply, CanCommit, AfterMatch, AfterApply;
    if step.MatchStatus? {
      MatchLeavesRows(w, step.task, step.found);
    } else if step.ApplyStatus? {
      ApplyWritesOneRow(w, step.task);
    }
  }

  lemma {:induction false} ExecKeepsClaimedPending(w: World, steps: seq<Step>)
    requires ClaimedPending(w) && Exec(w, steps).Some?
    ensures ClaimedPending(Exec(w, steps).value)
  {
    hide ClaimedPending, Try;
    if steps != [] {
      var before := steps[..|steps| - 1];
      ExecKeepsClaimedPending(w, before);
      StepKeepsClaimedPending(Exec(w, before).value, steps[|steps| - 1]);
    }
  }

  lemma ClaimsArePending(w: World, step: Step)
    requires Reachable(w) && Enabled(w, step) && step.RecordFailure?
    ensures step.task in w.attempts && w.attempts[step.task].snapshot.state == PENDING
  {
    var steps :| Exec(INITIAL, steps) == Some(w);
    hide Exec;
    ExecKeepsClaimedPending(INITIAL, steps);
  }

  /**
   In any run, a worker that takes a sent row back overwrites a row that has changed since it claimed
   it: what it claimed was PENDING. Being within its own lease does not prevent this, since the change
   may come from a worker that outlived an earlier one, or from its own commit it did not hear of.
   */
  lemma RevertedRowHasMoved(w: World, t: TaskId, jitter: nat, r: RowId)
    requires Reachable(w) && Enabled(w, RecordFailure(t, jitter)) && r in w.rows && Sent(w.rows[r])
    requires !Sent(Next(w, RecordFailure(t, jitter)).rows[r])
    ensures w.attempts[t].row == r && w.attempts[t].snapshot.state == PENDING && w.rows[r] != w.attempts[t].snapshot
  {
    ReachableInv(w);
    ClaimsArePending(w, RecordFailure(t, jitter));
    hide Inv, Reachable, Try;
    OnlyStaleWritesRevert(w, RecordFailure(t, jitter), r);
  }

  /** The row after an event: still sent, and still acknowledged if it was. */
  ghost predicate Kept(before: Row, after: Row) {
    Sent(after) && (before.state == ACKNOWLEDGED ==> after.state == ACKNOWLEDGED)
  }

  lemma WriteKeepsSent(w: World, step: Step, r: RowId)
    requires Enabled(w, step) && WritesRows(step) && !step.ApplyStatus? && r in w.rows && Sent(w.rows[r])
    requires step.RecordSent? || step.RecordFailure? ==> step.task in w.attempts && w.attempts[step.task].row != r
    requires step.Requeue? ==> step.task in w.retries && w.retries[step.task] != r
    ensures r in Next(w, step).rows && Next(w, step).rows[r] == w.rows[r]
  {}

  lemma HeldIsUnsent(w: World, at: Time, t: TaskId, r: RowId)
    requires LeaseInv(w, at) && Live(w, t, at) && r in w.rows && Sent(w.rows[r])
    ensures w.attempts[t].row != r
  {
    OnlyOwnAttempt(w, at, t);
  }

  lemma EventKeepsSent(w: World, clock: Time, e: Event, r: RowId)
    requires LeaseInv(w, clock) && Disciplined(w, clock, e) && r in w.rows && Sent(w.rows[r])
    ensures r in Next(w, e.step).rows && Kept(w.rows[r], Next(w, e.step).rows[r])
  {
    LaterIsFewer(w, clock, e.at);
    hide LeaseInv, Try;
    if e.step.RecordSent? || e.step.RecordFailure? {
      HeldIsUnsent(w, e.at, e.step.task, r);
    }
    if !WritesRows(e.step) {
      LeavesRows(w, e.step);
    } else if e.step.ApplyStatus? {
      AppliedKeepsSent(w, e.step.task, r);
    } else {
      WriteKeepsSent(w, e.step, r);
    }
  }

  lemma AppliedKeepsSent(w: World, t: TaskId, r: RowId)
    requires Enabled(w, ApplyStatus(t)) && r in w.rows && Sent(w.rows[r])
    ensures r in Next(w, ApplyStatus(t)).rows && Kept(w.rows[r], Next(w, ApplyStatus(t)).rows[r])
  {
    ApplyWritesOneRow(w, t);
  }

  // ---------------------------------------------------------------------- backoff accounts

  /** The attempt counter a row was last queued with, and the delays scheduled since. */
  datatype Account = Account(base: nat, delays: seq<nat>)
  type Ledger = map<RowId, Account>

  predicate Parks(a: Attempt)
    requires a.outcome.Failed?
  {
    a.outcome.permanent || a.snapshot.attempt + 1 > MAX_ATTEMPTS
  }

  function Booked(w: World, ledger: Ledger, step: Step): Ledger {
    match step
    case Insert(_, r, _) => ledger[r := Account(1, [])]
    case Requeue(t, _) => if t in w.retries then ledger[w.retries[t] := Account(0, [])] else ledger
    case RecordFailure(t, jitter) =>
      if t in w.attempts && w.attempts[t].outcome.Failed? && w.attempts[t].row in ledger && !Parks(w.attempts[t]) then
        var a := w.attempts[t];
        ledger[a.row := ledger[a.row].(delays := ledger[a.row].delays + [DelaySeconds(a.snapshot.attempt) + jitter])]
      else ledger
    case _ => ledger
  }

  ghost predicate InRange(account: Account) {
    && account.base <= 1
    && account.base + |account.delays| <= MAX_ATTEMPTS
    && forall k :: 0 <= k < |account.delays| ==>
         DelaySeconds(account.base + k) <= account.delays[k] <= DelaySeconds(account.base + k) + 29
  }

  ghost predicate Balanced(row: Row, account: Account) {
    InRange(account) && (row.state == PENDING ==> row.attempt == account.base + |account.delays|)
  }

  ghost predicate LedgerInv(w: World, ledger: Ledger) {
    forall r :: r in w.rows ==> r in ledger && Balanced(w.rows[r], ledger[r])
  }

  lemma RowsKeepLedger(w: World, v: World, ledger: Ledger)
    requires LedgerInv(w, ledger)
    requires forall r :: r in v.rows ==> r in w.rows && (v.rows[r].state == PENDING ==>
               w.rows[r].state == PENDING && v.rows[r].attempt == w.rows[r].attempt)
    ensures LedgerInv(v, ledger)
  {
    hide InRange;
  }

  lemma FailureKeepsLedger(w: World, at: Time, t: TaskId, jitter: nat, ledger: Ledger)
    requires LeaseInv(w, at) && CanRecordFailure(w, t, jitter) && InLease(w.attempts[t], at) && LedgerInv(w, ledger)
    ensures LedgerInv(AfterRecordFailure(w, t, jitter), Booked(w, ledger, RecordFailure(t, jitter)))
  {
    hide LeaseInv, Balanced, Booked, AfterRecordFailure;
    var v, r := AfterRecordFailure(w, t, jitter), w.attempts[t].row;
    OnlyOwnAttempt(w, at, t);
    FailureWritesOneRow(w, t, jitter);
    FailureBooksOneRow(w, ledger, t, jitter);
    FailedBalances(w.rows[r], ledger[r], w.attempts[t], jitter);
  }

  lemma FailureWritesOneRow(w: World, t: TaskId, jitter: nat)
    requires CanRecordFailure(w, t, jitter)
    ensures var a := w.attempts[t];
            AfterRecordFailure(w, t, jitter).rows ==
              w.rows[a.row := FailedRow(w.rows[a.row], a.snapshot, a.outcome.permanent, a.startedAt.value, jitter)]
  {}

  lemma FailureBooksOneRow(w: World, ledger: Ledger, t: TaskId, jitter: nat)
    requires CanRecordFailure(w, t, jitter) && w.attempts[t].row in ledger
    ensures var a := w.attempts[t];
            Booked(w, ledger, RecordFailure(t, jitter)) == ledger[a.row := AccountAfter(ledger[a.row], a, jitter)]
  {}

  function AccountAfter(account: Account, a: Attempt, jitter: nat): Account
    requires a.outcome.Failed?
  {
    if Parks(a) then account else account.(delays := account.delays + [DelaySeconds(a.snapshot.attempt) + jitter])
  }

  lemma FailedBalances(row: Row, account: Account, a: Attempt, jitter: nat)
    requires Balanced(row, account) && row == a.snapshot && row.state == PENDING
    requires a.outcome.Failed? && a.startedAt.Some? && IsJitter(jitter, a.snapshot.attempt)
    ensures Balanced(FailedRow(row, a.snapshot, a.outcome.permanent, a.startedAt.value, jitter), AccountAfter(account, a, jitter))
  {}

  lemma ApplyKeepsLedger(w: World, t: TaskId, ledger: Ledger)
    requires CanApply(w, t) && LedgerInv(w, ledger)
    ensures LedgerInv(AfterApply(w, t), ledger)
  {
    ApplyPending(w, t);
    hide AfterApply;
    RowsKeepLedger(w, AfterApply(w, t), ledger);
  }

  lemma ApplyPending(w: World, t: TaskId)
    requires CanApply(w, t)
    ensures forall r :: r in AfterApply(w, t).rows ==>
              && r in w.rows
              && (AfterApply(w, t).rows[r].state == PENDING ==> AfterApply(w, t).rows[r] == w.rows[r])
  {
    hide AfterNewStatus;
    if ReportedStatus(w, t) !in w.history {
      NewStatusWritesOneRow(w, t);
    }
  }

  lemma ClaimAndSendKeepLedger(w: World, step: Step, ledger: Ledger)
    requires Enabled(w, step) && (step.Claim? || step.RecordSent?) && LedgerInv(w, ledger)
    ensures LedgerInv(Next(w, step), ledger) && Booked(w, ledger, step) == ledger
  {
    hide Balanced;
    assert forall r :: r in Next(w, step).rows ==> r in w.rows;
    RowsKeepLedger(w, Next(w, step), ledger);
  }

  lemma OthersKeepLedger(w: World, step: Step, ledger: Ledger)
    requires Enabled(w, step) && !WritesRows(step) && LedgerInv(w, ledger)
    ensures LedgerInv(Next(w, step), ledger) && Booked(w, ledger, step) == ledger
  {
    LeavesRows(w, step);
    hide Try, Balanced;
  }

  lemma EventKeepsLedger(w: World, clock: Time, e: Event, ledger: Ledger)
    requires LeaseInv(w, clock) && Disciplined(w, clock, e) && LedgerInv(w, ledger)
    ensures LedgerInv(Next(w, e.step), Booked(w, ledger, e.step))
  {
    LaterIsFewer(w, clock, e.at);
    hide LeaseInv, LedgerInv, InLease, Try, Booked;
    if !WritesRows(e.step) {
      OthersKeepLedger(w, e.step, ledger);
    } else if e.step.RecordFailure? {
      FailureStep(w, e.step, e.at, ledger);
    } else if e.step.ApplyStatus? {
      ApplyStep(w, e.step, ledger);
    } else if e.step.Insert? || e.step.Requeue? {
      FreshAccount(w, e.step, ledger);
    } else {
      ClaimAndSendKeepLedger(w, e.step, ledger);
    }
  }

  lemma FailureStep(w: World, step: Step, at: Time, ledger: Ledger)
    requires LeaseInv(w, at) && step.RecordFailure? && Enabled(w, step) && LedgerInv(w, ledger)
    requires step.task in w.attempts && InLease(w.attempts[step.task], at)
    ensures LedgerInv(Next(w, step), Booked(w, ledger, step))
  {
    hide LeaseInv, LedgerInv, Booked, AfterRecordFailure;
    FailureKeepsLedger(w, at, step.task, step.jitter, ledger);
  }

  lemma ApplyStep(w: World, step: Step, ledger: Ledger)
    requires step.ApplyStatus? && Enabled(w, step) && LedgerInv(w, ledger)
    ensures LedgerInv(Next(w, step), Booked(w, ledger, step))
  {
    hide LedgerInv, AfterApply;
    ApplyKeepsLedger(w, step.task, ledger);
  }

  /** A row just queued or requeued starts a new account. */
  lemma FreshAccount(w: World, step: Step, ledger: Ledger)
    requires (step.Insert? || step.Requeue?) && Enabled(w, step) && LedgerInv(w, ledger)
    ensures LedgerInv(Next(w, step), Booked(w, ledger, step))
  {}

  // ---------------------------------------------------------------------- runs in which nobody outlives a lease

  datatype Journal = Journal(world: World, clock: Time, ledger: Ledger)

  function Play(start: Time, events: seq<Event>): Option<Journal> {
    if events == [] then Some(Journal(INITIAL, start, map[]))
    else
      match Play(start, events[..|events| - 1])
      case None => None
      case Some(j) =>
        var e := events[|events| - 1];
        if Disciplined(j.world, j.clock, e) then Some(Journal(Next(j.world, e.step), e.at, Booked(j.world, j.ledger, e.step)))
        else None
  }

  lemma {:induction false} PlayKeepsLease(start: Time, events: seq<Event>)
    requires Play(start, events).Some?
    ensures var j := Play(start, events).value; LeaseInv(j.world, j.clock) && LedgerInv(j.world, j.ledger)
  {
    if events != [] {
      PlayKeepsLease(start, events[..|events| - 1]);
      var j, e := Play(start, events[..|events| - 1]).value, events[|events| - 1];
      hide LeaseInv, LedgerInv, Booked, Try;
      EventKeepsLease(j.world, j.clock, e);
      EventKeepsLedger(j.world, j.clock, e, j.ledger);
    }
  }

  /** At most one attempt is in flight per row, always on a row still waiting to be sent. */
  lemma OneAttemptInFlight(start: Time, events: seq<Event>, t: TaskId, u: TaskId)
    requires Play(start, events).Some?
    requires var j := Play(start, events).value; Live(j.world, t, j.clock) && Live(j.world, u, j.clock)
    ensures var w := Play(start, events).value.world;
            && w.attempts[t].row in w.rows
            && w.rows[w.attempts[t].row].state == PENDING
            && (w.attempts[t].row == w.attempts[u].row ==> t == u)
  {
    PlayKeepsLease(start, events);
    var j := Play(start, events).value;
    hide Play;
    OnlyOwnAttempt(j.world, j.clock, t);
  }

  /** A row carries an identifier exactly while it is SENT or ACKNOWLEDGED. */
  lemma NamedExactlyWhenSent(start: Time, events: seq<Event>, r: RowId)
    requires Play(start, events).Some? && r in Play(start, events).value.world.rows
    ensures var row := Play(start, events).value.world.rows[r]; row.externalId.Some? <==> Sent(row)
  {
    PlayKeepsLease(start, events);
    hide Play;
    NamesAreSent(Play(start, events).value.world, Play(start, events).value.clock);
  }

  lemma {:induction false} SentNeverReverts(start: Time, first: seq<Event>, second: seq<Event>, r: RowId)
    requires Play(start, first + second).Some? && Play(start, first).Some?
    requires r in Play(start, first).value.world.rows && Sent(Play(start, first).value.world.rows[r])
    ensures r in Play(start, first + second).value.world.rows
    ensures Kept(Play(start, first).value.world.rows[r], Play(start, first + second).value.world.rows[r])
  {
    if second == [] {
      assert first + second == first;
    } else {
      var all, before, e := first + second, second[..|second| - 1], second[|second| - 1];
      assert all[..|all| - 1] == first + before && all[|all| - 1] == e;
      SentNeverReverts(start, first, before, r);
      PlayKeepsLease(start, first + before);
      var j := Play(start, first + before).value;
      hide LeaseInv, LedgerInv, Booked, Try;
      EventKeepsSent(j.world, j.clock, e, r);
    }
  }

  // ---------------------------------------------------------------------- how long a row can take

  function Total(delays: seq<nat>): nat {
    if delays == [] then 0 else Total(delays[..|delays| - 1]) + delays[|delays| - 1]
  }

  function Scheduled(base: nat, count: nat): nat {
    if count == 0 then 0 else Scheduled(base, count - 1) + DelaySeconds(base + count - 1)
  }

  lemma {:induction false} TotalWithinJitter(base: nat, delays: seq<nat>)
    requires forall k :: 0 <= k < |delays| ==> DelaySeconds(base + k) <= delays[k] <= DelaySeconds(base + k) + 29
    ensures Scheduled(base, |delays|) <= Total(delays) <= Scheduled(base, |delays|) + 29 * |delays|
  {
    hide DelaySeconds;
    if delays != [] {
      var n := |delays| - 1;
      TotalWithinJitter(base, delays[..n]);
      assert DelaySeconds(base + n) <= delays[n] <= DelaySeconds(base + n) + 29;
    }
  }

  lemma FullSchedules()
    ensures Scheduled(0, 6) == 9750 && Scheduled(1, 5) == 9720
  {
    assert Scheduled(0, 3) == 750 && Scheduled(1, 3) == 2520;
    assert Scheduled(0, 5) == 6150;
  }

  /**
   Since it was last queued a row backs off at most six times after a retry and five times after an
   enqueue, and the delays of a full schedule add up to these many seconds.
   */
  lemma BackoffIsBounded(start: Time, events: seq<Event>, r: RowId)
    requires Play(start, events).Some? && r in Play(start, events).value.world.rows
    ensures r in Play(start, events).value.ledger
    ensures var account := Play(start, events).value.ledger[r];
            && account.base <= 1
            && |account.delays| <= 6 - account.base
            && (|account.delays| == 6 ==> 9750 <= Total(account.delays) <= 9924)
            && (account.base == 1 && |account.delays| == 5 ==> 9720 <= Total(account.delays) <= 9865)
  {
    PlayKeepsLease(start, events);
    LedgerIsBalanced(Play(start, events).value.world, Play(start, events).value.ledger, r);
    hide *;
    FullAccount(Play(start, events).value.ledger[r]);
  }

  lemma LedgerIsBalanced(w: World, ledger: Ledger, r: RowId)
    requires LedgerInv(w, ledger) && r in w.rows
    ensures r in ledger && InRange(ledger[r])
  {}

  lemma FullAccount(account: Account)
    requires InRange(account)
    ensures account.base <= 1 && |account.delays| <= 6 - account.base
    ensures |account.delays| == 6 ==> 9750 <= Total(account.delays) <= 9924
    ensures account.base == 1 && |account.delays| == 5 ==> 9720 <= Total(account.delays) <= 9865
  {
    hide Scheduled, Total, DelaySeconds;
    TotalWithinJitter(account.base, account.delays);
    FullSchedules();
  }

  /** A recorded failure parks the row exactly when it is permanent or the schedule is used up. */
  lemma FailureParksAtTheEnd(start: Time, events: seq<Event>, t: TaskId, jitter: nat)
    requires Play(start, events).Some?
    requires var j := Play(start, events).value; Live(j.world, t, j.clock) && CanRecordFailure(j.world, t, jitter)
    ensures var j := Play(start, events).value;
            var a := j.world.attempts[t];
            && a.row in j.ledger
            && (AfterRecordFailure(j.world, t, jitter).rows[a.row].state == RowState.FAILED <==>
                a.outcome.permanent || |j.ledger[a.row].delays| == 6 - j.ledger[a.row].base)
  {
    PlayKeepsLease(start, events);
    var j := Play(start, events).value;
    hide Play;
    OnlyOwnAttempt(j.world, j.clock, t);
    hide LeaseInv;
    assert Balanced(j.world.rows[j.world.attempts[t].row], j.ledger[j.world.attempts[t].row]);
  }

  // ---------------------------------------------------------------------- what a worker outliving its lease does

  const QUEUED_ROW := Row(0, 0, Key(0, 1), PENDING, 1, None, 0, None, None)
  const FIRST_CLAIM := QUEUED_ROW.(claimedAt := Some(0), claimedBy := Some(1))
  const SECOND_CLAIM := QUEUED_ROW.(claimedAt := Some(CLAIM_LEASE_MS + 1), claimedBy := Some(2))
  const RECEIPT := Receipt(9, CLAIM_LEASE_MS + 2)
  const DOCUMENTS := map[DocumentId(0, Key(0, 1)) := RECEIPT]
  const SENT_ROW := QUEUED_ROW.(state := SENT, externalId := Some(9))

  function Scene(state: InvoiceState, rows: map<RowId, Row>): World {
    INITIAL.(invoices := map[0 := Invoice(Issued, state, 0, 0, [Artifact(FacturxPdf, 1), Artifact(CiiXml, 2)])],
             connections := map[0 := Connection(0, 0, true, None, None)],
             rows := rows)
  }

  lemma Took(w: World, step: Step, v: World)
    requires Reachable(w) && Enabled(w, step) && v == Next(w, step)
    ensures Reachable(v)
  {
    hide Reachable, Try;
    ReachableNext(w, step);
  }

  lemma SceneIssued()
    ensures Reachable(Scene(VALIDATED, map[]))
  {
    assert Exec(INITIAL, []) == Some(INITIAL);
    var issued := INITIAL.(invoices := Scene(VALIDATED, map[]).invoices);
    Took(INITIAL, Issue(0, 0, 0, 1, 2), issued);
    var connected := AfterSaveConnection(issued, 0, 0, 0, true);
    Took(issued, SaveConnection(0, 0, 0, true), connected);
    assert connected == Scene(VALIDATED, map[]);
  }

  lemma SceneQueued()
    ensures Reachable(Scene(QUEUED, map[0 := QUEUED_ROW]))
  {
    SceneIssued();
    hide Reachable;
    var w := Scene(VALIDATED, map[]);
    var read := w.(enqueues := map[0 := Enqueue(0, VALIDATED, Key(0, 1), None)]);
    assert AfterReadInvoice(w, 0, 0) == read;
    Took(w, ReadInvoice(0, 0), read);
    var routed := w.(enqueues := map[0 := Enqueue(0, VALIDATED, Key(0, 1), Some(0))]);
    assert AfterReadConnection(read, 0, 0) == routed;
    Took(read, ReadConnection(0, 0), routed);
    assert AfterInsert(routed, 0, 0, 0) == Scene(QUEUED, map[0 := QUEUED_ROW]);
    Took(routed, Insert(0, 0, 0), Scene(QUEUED, map[0 := QUEUED_ROW]));
  }

  lemma SceneClaimedTwice()
    ensures Reachable(Scene(QUEUED, map[0 := SECOND_CLAIM]).(attempts :=
              map[1 := Attempt(0, FIRST_CLAIM, None, Waiting), 2 := Attempt(0, SECOND_CLAIM, None, Waiting)]))
  {
    SceneQueued();
    hide Reachable;
    var w := Scene(QUEUED, map[0 := QUEUED_ROW]);
    var once := Scene(QUEUED, map[0 := FIRST_CLAIM]).(attempts := map[1 := Attempt(0, FIRST_CLAIM, None, Waiting)]);
    assert AfterClaim(w, 1, 0, 1, 0) == once;
    Took(w, Claim(1, 0, 1, 0), once);
    var twice := Scene(QUEUED, map[0 := SECOND_CLAIM]).(attempts :=
      map[1 := Attempt(0, FIRST_CLAIM, None, Waiting), 2 := Attempt(0, SECOND_CLAIM, None, Waiting)]);
    assert AfterClaim(once, 2, 0, 2, CLAIM_LEASE_MS + 1) == twice;
    Took(once, Claim(2, 0, 2, CLAIM_LEASE_MS + 1), twice);
  }

  lemma SceneBothBegun()
    ensures Reachable(Scene(QUEUED, map[0 := SECOND_CLAIM]).(attempts :=
              map[1 := Attempt(0, FIRST_CLAIM, Some(0), Waiting), 2 := Attempt(0, SECOND_CLAIM, Some(CLAIM_LEASE_MS + 1), Waiting)]))
  {
    SceneClaimedTwice();
    hide Reachable;
    var first := Attempt(0, FIRST_CLAIM, Some(0), Waiting);
    var at := CLAIM_LEASE_MS + 1;
    var w := Scene(QUEUED, map[0 := SECOND_CLAIM]).(attempts :=
      map[1 := Attempt(0, FIRST_CLAIM, None, Waiting), 2 := Attempt(0, SECOND_CLAIM, None, Waiting)]);
    var begun := w.(attempts := map[1 := first, 2 := Attempt(0, SECOND_CLAIM, None, Waiting)]);
    assert AfterBegin(w, 1, 0) == begun;
    Took(w, Begin(1, 0), begun);
    var both := w.(attempts := map[1 := first, 2 := Attempt(0, SECOND_CLAIM, Some(at), Waiting)]);
    assert AfterBegin(begun, 2, at) == both;
    Took(begun, Begin(2, at), both);
  }

  lemma SceneAccepted()
    ensures Reachable(Scene(QUEUED, map[0 := SECOND_CLAIM]).(
              documents := DOCUMENTS,
              attempts := map[1 := Attempt(0, FIRST_CLAIM, Some(0), Waiting),
                              2 := Attempt(0, SECOND_CLAIM, Some(CLAIM_LEASE_MS + 1), Accepted(RECEIPT))]))
  {
    SceneBothBegun();
    hide Reachable;
    var first := Attempt(0, FIRST_CLAIM, Some(0), Waiting);
    var at := CLAIM_LEASE_MS + 1;
    var both := Scene(QUEUED, map[0 := SECOND_CLAIM]).(attempts := map[1 := first, 2 := Attempt(0, SECOND_CLAIM, Some(at), Waiting)]);
    var accepted := both.(documents := DOCUMENTS,
                          attempts := map[1 := first, 2 := Attempt(0, SECOND_CLAIM, Some(at), Accepted(RECEIPT))]);
    assert AfterSend(both, 2, RECEIPT, true) == accepted;
    Took(both, Send(2, RECEIPT, true), accepted);
  }

  lemma SceneSent()
    ensures Reachable(Scene(TRANSMITTED, map[0 := SENT_ROW]).(
              documents := DOCUMENTS,
              history := {Status(0, DEPOSEE, CLAIM_LEASE_MS + 2)},
              attempts := map[1 := Attempt(0, FIRST_CLAIM, Some(0), Waiting)]))
  {
    SceneAccepted();
    hide Reachable;
    var first := Attempt(0, FIRST_CLAIM, Some(0), Waiting);
    var accepted := Scene(QUEUED, map[0 := SECOND_CLAIM]).(
      documents := DOCUMENTS,
      attempts := map[1 := first, 2 := Attempt(0, SECOND_CLAIM, Some(CLAIM_LEASE_MS + 1), Accepted(RECEIPT))]);
    var sent := Scene(TRANSMITTED, map[0 := SENT_ROW]).(
      documents := DOCUMENTS, history := {Status(0, DEPOSEE, CLAIM_LEASE_MS + 2)}, attempts := map[1 := first]);
    assert AfterRecordSent(accepted, 2, true) == sent;
    Took(accepted, RecordSent(2, true), sent);
  }

  /** A worker that outlives its lease puts a SENT row back to PENDING; the platform still holds one document. */
  lemma StaleWorkerReverts() returns (w: World, step: Step)
    ensures Reachable(w) && Enabled(w, step) && step.RecordFailure?
    ensures 0 in w.rows && w.rows[0].state == SENT
    ensures Next(w, step).rows[0].state == PENDING && |Next(w, step).documents| == 1
  {
    SceneSent();
    hide Reachable;
    var sent := Scene(TRANSMITTED, map[0 := SENT_ROW]).(
      documents := DOCUMENTS,
      history := {Status(0, DEPOSEE, CLAIM_LEASE_MS + 2)},
      attempts := map[1 := Attempt(0, FIRST_CLAIM, Some(0), Waiting)]);
    w := sent.(attempts := map[1 := Attempt(0, FIRST_CLAIM, Some(0), Failed(false))]);
    assert AfterFail(sent, 1, false) == w;
    Took(sent, Fail(1, false), w);
    step := RecordFailure(1, 0);
    assert CanRecordFailure(w, 1, 0);
  }

  const HEARD_NOTHING := Attempt(0, FIRST_CLAIM, Some(0), Failed(false))
  const AT_ONCE := Receipt(9, 1)
  const HELD := map[DocumentId(0, Key(0, 1)) := AT_ONCE]

  lemma SceneClaimedOnce()
    ensures Reachable(Scene(QUEUED, map[0 := FIRST_CLAIM]).(attempts := map[1 := Attempt(0, FIRST_CLAIM, Some(0), Waiting)]))
  {
    SceneQueued();
    hide Reachable;
    var w := Scene(QUEUED, map[0 := QUEUED_ROW]);
    var claimed := Scene(QUEUED, map[0 := FIRST_CLAIM]).(attempts := map[1 := Attempt(0, FIRST_CLAIM, None, Waiting)]);
    assert AfterClaim(w, 1, 0, 1, 0) == claimed;
    Took(w, Claim(1, 0, 1, 0), claimed);
    var begun := Scene(QUEUED, map[0 := FIRST_CLAIM]).(attempts := map[1 := Attempt(0, FIRST_CLAIM, Some(0), Waiting)]);
    assert AfterBegin(claimed, 1, 0) == begun;
    Took(claimed, Begin(1, 0), begun);
  }

  lemma SceneAcceptedOnce()
    ensures Reachable(Scene(QUEUED, map[0 := FIRST_CLAIM]).(
              documents := HELD, attempts := map[1 := Attempt(0, FIRST_CLAIM, Some(0), Accepted(AT_ONCE))]))
  {
    SceneClaimedOnce();
    hide Reachable;
    var begun := Scene(QUEUED, map[0 := FIRST_CLAIM]).(attempts := map[1 := Attempt(0, FIRST_CLAIM, Some(0), Waiting)]);
    var accepted := begun.(documents := HELD, attempts := map[1 := Attempt(0, FIRST_CLAIM, Some(0), Accepted(AT_ONCE))]);
    assert AfterSend(begun, 1, AT_ONCE, true) == accepted;
    Took(begun, Send(1, AT_ONCE, true), accepted);
  }

  const UNHEARD := Scene(TRANSMITTED, map[0 := SENT_ROW]).(
    documents := HELD, history := {Status(0, DEPOSEE, 1)}, attempts := map[1 := HEARD_NOTHING])

  lemma SceneUnheard()
    ensures Reachable(UNHEARD)
  {
    SceneAcceptedOnce();
    hide Reachable;
    var accepted := Scene(QUEUED, map[0 := FIRST_CLAIM]).(
      documents := HELD, attempts := map[1 := Attempt(0, FIRST_CLAIM, Some(0), Accepted(AT_ONCE))]);
    assert AfterRecordSent(accepted, 1, false) == UNHEARD;
    Took(accepted, RecordSent(1, false), UNHEARD);
  }

  /**
   Even alone and within its lease a worker puts its own SENT row back to PENDING, when the commit goes
   through and the news of it is lost.
   */
  lemma UnheardCommitReverts() returns (w: World, step: Step)
    ensures Reachable(w) && Enabled(w, step) && step.RecordFailure? && w.attempts.Keys == {step.task}
    ensures InLease(w.attempts[step.task], 1)
    ensures 0 in w.rows && w.rows[0].state == SENT
    ensures Next(w, step).rows[0].state == PENDING && |Next(w, step).documents| == 1
  {
    SceneUnheard();
    hide Reachable;
    w := UNHEARD;
    step := RecordFailure(1, 0);
    assert CanRecordFailure(w, 1, 0);
  }
}
