/** What each call on the transmission queue may do to the world, and the protocol steps it stands for. */
module TransmissionSpec {
  import opened Prelude
  import opened Seqs
  import opened Lifecycle
  import opened Pdp
  import opened PdpSafety
  import opened PdpLease
  import opened Sweep

  datatype EnqueueError = UnknownInvoice | NotIssued | NothingSealed | NoActiveConnection
  datatype EnqueueResult = EnqueueResult(row: RowId, key: Key, alreadyQueued: bool)

  /** How a send turns out; a receipt is what the platform would mint if the key is new to it. */
  datatype Answer = Untransmittable | Unreachable | Lost(receipt: Receipt) | Delivered(receipt: Receipt)
  datatype AttemptOutcome = SentOut | WillRetry | Parked
  datatype DrainReport = DrainReport(claimed: nat, sent: nat, failed: nat, parked: nat)

  /** The first identifier from `from` on that no key uses. */
  function FreshId(keys: set<nat>, from: nat): (id: nat)
    ensures id !in keys && from <= id
    decreases set k | k in keys && from <= k
  {
    if from !in keys then from
    else
      assert (set k | k in keys && from + 1 <= k) == (set k | k in keys && from <= k) - {from};
      FreshId(keys, from + 1)
  }

  /** Why a call to enqueue is refused, in the order the checks are made. */
  ghost function Refusal(w: World, i: InvoiceId): Option<EnqueueError> {
    if i !in w.invoices then Some(UnknownInvoice)
    else if w.invoices[i].direction != Issued then Some(NotIssued)
    else if w.invoices[i].archive == [] then Some(NothingSealed)
    else if !HasActiveConnection(w, w.invoices[i].client) then Some(NoActiveConnection)
    else None
  }

  /** `w` with invoice `i` queued in a new row `r` towards connection `c`. */
  ghost function Queued(w: World, i: InvoiceId, c: ConnectionId, r: RowId, now: Time): World
    requires i in w.invoices && KeyOf(w, i).Some?
  {
    var state := w.invoices[i].state;
    w.(rows := w.rows[r := Row(i, c, KeyOf(w, i).value, PENDING, 1, None, now, None, None)],
       invoices := w.invoices[i := w.invoices[i].(state := if state == VALIDATED || state == DRAFT then QUEUED else state)])
  }

  /** The artifact a key is cut from: the first sealed PDF, or the first XML when no PDF was sealed. */
  ghost predicate IsHandover(archive: seq<Artifact>, hash: Hash) {
    var kind := if exists k :: 0 <= k < |archive| && archive[k].kind == FacturxPdf then FacturxPdf else CiiXml;
    exists k :: 0 <= k < |archive| && archive[k] == Artifact(kind, hash) && forall j :: 0 <= j < k ==> archive[j].kind != kind
  }

  lemma {:induction false} FindIsFirst(archive: seq<Artifact>, kind: ArtifactKind)
    ensures Find(archive, kind).None? <==> forall k :: 0 <= k < |archive| ==> archive[k].kind != kind
    ensures Find(archive, kind).Some? ==>
              exists k :: 0 <= k < |archive| && archive[k] == Find(archive, kind).value && archive[k].kind == kind
                          && forall j :: 0 <= j < k ==> archive[j].kind != kind
  {
    if archive != [] {
      var rest := archive[1..];
      FindIsFirst(rest, kind);
      if archive[0].kind == kind {
        assert archive[0] == Find(archive, kind).value;
      } else if Find(archive, kind).Some? {
        var k :| 0 <= k < |rest| && rest[k] == Find(rest, kind).value && rest[k].kind == kind && forall j :: 0 <= j < k ==> rest[j].kind != kind;
        assert archive[k + 1] == rest[k];
        forall j | 0 <= j < k + 1 ensures archive[j].kind != kind {
          if j > 0 {
            assert archive[j] == rest[j - 1];
          }
        }
      } else {
        forall k | 0 <= k < |archive| ensures archive[k].kind != kind {
          if k > 0 {
            assert archive[k] == rest[k - 1];
          }
        }
      }
    }
  }

  /** What is handed over to the platform, and that it is there exactly when something was sealed. */
  lemma KeyIsOfHandover(w: World, i: InvoiceId)
    requires i in w.invoices
    ensures KeyOf(w, i).None? <==> w.invoices[i].archive == []
    ensures KeyOf(w, i).Some? ==> KeyOf(w, i).value.invoice == i && IsHandover(w.invoices[i].archive, KeyOf(w, i).value.hash)
  {
    var archive := w.invoices[i].archive;
    FindIsFirst(archive, FacturxPdf);
    FindIsFirst(archive, CiiXml);
    hide Find;
  }

  /** What one call to enqueue may do: refuse, find the row that has the key, or create it. */
  ghost predicate Enqueues(w: World, i: InvoiceId, now: Time, answer: Result<EnqueueResult, EnqueueError>, v: World) {
    match answer
    case Err(error) => Refusal(w, i) == Some(error) && v == w
    case Ok(queued) =>
      && Refusal(w, i) == None
      && queued.key == KeyOf(w, i).value && queued.key.invoice == i && IsHandover(w.invoices[i].archive, queued.key.hash)
      && queued.row in v.rows
      && v.rows[queued.row].key == queued.key
      && (queued.alreadyQueued <==> KeyTaken(w, queued.key))
      && (if queued.alreadyQueued then v == w
          else && queued.row !in w.rows
               && v.rows[queued.row].connection in w.connections
               && w.connections[v.rows[queued.row].connection].active
               && w.connections[v.rows[queued.row].connection].client == w.invoices[i].client
               && v == Queued(w, i, v.rows[queued.row].connection, queued.row, now))
  }

  lemma QueuedIsTaken(w: World, i: InvoiceId, now: Time, first: Result<EnqueueResult, EnqueueError>, v: World)
    requires Enqueues(w, i, now, first, v) && first.Ok?
    ensures Refusal(v, i) == None && KeyOf(v, i) == KeyOf(w, i) && KeyTaken(v, KeyOf(v, i).value)
  {
    assert v.connections == w.connections;
    assert KeyOf(v, i) == KeyOf(w, i);
    assert HasActiveConnection(v, v.invoices[i].client) <==> HasActiveConnection(w, w.invoices[i].client);
    assert KeyTaken(v, first.value.key);
  }

  /**
   Asking again, however much has happened since, changes nothing and names the same row; it is refused
   only while the client has no active connection.
   */
  lemma EnqueueIsIdempotent(w: World, v: World, since: World, u: World, i: InvoiceId, now: Time, later: Time,
                            first: Result<EnqueueResult, EnqueueError>, second: Result<EnqueueResult, EnqueueError>)
    requires Enqueues(w, i, now, first, v) && first.Ok? && Extends(v, since) && Reachable(since)
    requires Enqueues(since, i, later, second, u)
    ensures u == since && i in since.invoices
    ensures second == if HasActiveConnection(since, since.invoices[i].client) then Ok(first.value.(alreadyQueued := true))
                      else Err(NoActiveConnection)
  {
    ReachableInv(since);
    QueuedIsTaken(w, i, now, first, v);
    StillTaken(v, since, i, first.value.row);
    hide Inv, KeyOf, KeyTaken, Queued, Extends, HasActiveConnection;
    if second.Ok? {
      SameKeySameRow(since, first.value.row, second.value.row);
    }
  }

  lemma StillTaken(v: World, later: World, i: InvoiceId, r: RowId)
    requires Extends(v, later) && Refusal(v, i) == None && r in v.rows && Some(v.rows[r].key) == KeyOf(v, i)
    ensures i in later.invoices && later.invoices[i].direction == Issued && KeyOf(later, i) == KeyOf(v, i)
    ensures r in later.rows && later.rows[r].key == v.rows[r].key && KeyTaken(later, later.rows[r].key)
  {}

  lemma SameKeySameRow(w: World, r: RowId, q: RowId)
    requires Inv(w) && r in w.rows && q in w.rows && w.rows[r].key == w.rows[q].key
    ensures r == q
  {}

  lemma Traced(w: World, trace: seq<Step>, step: Step)
    requires Exec(INITIAL, trace) == Some(w) && Enabled(w, step)
    ensures Exec(INITIAL, trace + [step]) == Some(Next(w, step))
  {
    hide Try;
    assert (trace + [step])[..|trace + [step]| - 1] == trace;
  }

  // ---------------------------------------------------------------------- claiming

  function Stamped(row: Row, worker: WorkerId, now: Time): Row {
    row.(claimedAt := Some(now), claimedBy := Some(worker))
  }

  /** Still to be sent, its time come, and under no claim of the last five minutes. */
  ghost predicate Claimable(row: Row, now: Time) {
    && row.state == PENDING
    && row.nextAttemptAt <= now
    && (row.claimedAt.None? || now - row.claimedAt.value > 300000)
  }

  lemma DueIsClaimable(now: Time)
    ensures forall row :: Due(row, now) <==> Claimable(row, now)
  {}

  ghost function DueRows(w: World, now: Time): set<RowId> {
    set r | r in w.rows && Claimable(w.rows[r], now)
  }

  /** `rows` were due, are now stamped and each carries one new attempt of `tasks`; nothing else moved. */
  ghost predicate Claimed(w: World, v: World, worker: WorkerId, now: Time, rows: seq<RowId>, tasks: seq<TaskId>) {
    && |rows| == |tasks| && Distinct(rows) && Distinct(tasks)
    && (forall r :: r in rows ==> r in DueRows(w, now))
    && v.rows == (map r | r in w.rows :: if r in rows then Stamped(w.rows[r], worker, now) else w.rows[r])
    && (forall t :: t in tasks ==> t !in w.attempts && t in v.attempts)
    && (forall k :: 0 <= k < |tasks| ==>
          tasks[k] in v.attempts && rows[k] in v.rows &&
          v.attempts[tasks[k]] == Attempt(rows[k], v.rows[rows[k]], None, Waiting))
    && (forall t :: t in w.attempts ==> t in v.attempts && v.attempts[t] == w.attempts[t])
    && (forall t :: t in v.attempts ==> t in w.attempts || t in tasks)
    && v == w.(rows := v.rows, attempts := v.attempts)
  }

  /** As many as allowed, longest-waiting first, and none passed over for a later one. */
  ghost predicate OldestDueFirst(w: World, now: Time, limit: nat, rows: seq<RowId>) {
    && |rows| == Min(limit, |DueRows(w, now)|)
    && (forall r :: r in rows ==> r in w.rows)
    && (forall j, k :: 0 <= j < k < |rows| ==> w.rows[rows[j]].nextAttemptAt <= w.rows[rows[k]].nextAttemptAt)
    && (forall r, q :: r in rows && q in DueRows(w, now) && q !in rows ==> w.rows[r].nextAttemptAt <= w.rows[q].nextAttemptAt)
  }

  /** The two writes that can make a claimed row due before its lease is over. */
  ghost predicate Releases(w: World, step: Step, r: RowId) {
    || (step.RecordFailure? && step.task in w.attempts && w.attempts[step.task].row == r)
    || (step.Requeue? && step.task in w.retries && w.retries[step.task] == r)
  }

  ghost predicate NeverReleased(w: World, steps: seq<Step>, r: RowId) {
    forall k :: 0 <= k < |steps| && Exec(w, steps[..k]).Some? ==> !Releases(Exec(w, steps[..k]).value, steps[k], r)
  }

  predicate HeldSince(w: World, r: RowId, now: Time) {
    && r in w.rows
    && (w.rows[r].state != PENDING || (w.rows[r].claimedAt.Some? && now <= w.rows[r].claimedAt.value))
  }

  lemma StepKeepsHeld(w: World, step: Step, r: RowId, now: Time)
    requires Enabled(w, step) && !Releases(w, step, r) && HeldSince(w, r, now)
    ensures HeldSince(Next(w, step), r, now)
  {
    if !WritesRows(step) {
      LeavesRows(w, step);
    } else if step.ApplyStatus? {
      ApplyPending(w, step.task);
      ApplyWritesOneRow(w, step.task);
      hide AfterApply;
    } else {
      WriterKeepsHeld(w, step, r, now);
    }
  }

  lemma WriterKeepsHeld(w: World, step: Step, r: RowId, now: Time)
    requires Enabled(w, step) && WritesRows(step) && !step.ApplyStatus? && !Releases(w, step, r) && HeldSince(w, r, now)
    ensures HeldSince(Next(w, step), r, now)
  {
    hide KeyTaken, Advanced;
  }

  lemma {:induction false} RunKeepsHeld(w: World, steps: seq<Step>, r: RowId, now: Time)
    requires Exec(w, steps).Some? && NeverReleased(w, steps, r) && HeldSince(w, r, now)
    ensures HeldSince(Exec(w, steps).value, r, now)
  {
    if steps != [] {
      var before, last := steps[..|steps| - 1], steps[|steps| - 1];
      forall k | 0 <= k < |before| && Exec(w, before[..k]).Some? ensures !Releases(Exec(w, before[..k]).value, before[k], r) {
        assert before[..k] == steps[..k] && before[k] == steps[k];
      }
      hide Try, Releases, HeldSince;
      RunKeepsHeld(w, before, r, now);
      assert !Releases(Exec(w, steps[..|steps| - 1]).value, last, r);
      StepKeepsHeld(Exec(w, before).value, last, r, now);
    }
  }

  /**
   A claimed row is claimed again within the lease time only if a failure was recorded on it or it was
   requeued in between, whatever else happened.
   */
  lemma ClaimsAreDisjoint(u: World, v: World, steps: seq<Step>, v': World, w: World, one: WorkerId, other: WorkerId, now: Time, later: Time,
                          rows: seq<RowId>, tasks: seq<TaskId>, rows': seq<RowId>, tasks': seq<TaskId>, r: RowId)
    requires Claimed(u, v, one, now, rows, tasks) && Exec(v, steps) == Some(v') && Claimed(v', w, other, later, rows', tasks')
    requires later <= now + CLAIM_LEASE_MS && NeverReleased(v, steps, r)
    requires r in rows
    ensures r !in rows'
  {
    assert r in DueRows(u, now);
    assert v.rows[r] == Stamped(u.rows[r], one, now);
    RunKeepsHeld(v, steps, r, now);
    hide Exec, NeverReleased;
    assert r in rows' ==> r in DueRows(v', later);
  }

  /** What the steps that do not release a row leave of it: still pending, it waits for the same moment. */
  lemma StepKeepsSchedule(w: World, step: Step, r: RowId)
    requires Enabled(w, step) && !Releases(w, step, r) && r in w.rows
    ensures r in Next(w, step).rows
    ensures Next(w, step).rows[r].state == PENDING ==>
              w.rows[r].state == PENDING && Next(w, step).rows[r].nextAttemptAt == w.rows[r].nextAttemptAt
  {
    if !WritesRows(step) {
      LeavesRows(w, step);
    } else if step.ApplyStatus? {
      ApplyPending(w, step.task);
      ApplyWritesOneRow(w, step.task);
      hide AfterApply;
    } else {
      hide KeyTaken, Advanced;
    }
  }

  lemma {:induction false} RunKeepsSchedule(w: World, steps: seq<Step>, r: RowId)
    requires Exec(w, steps).Some? && NeverReleased(w, steps, r) && r in w.rows
    ensures r in Exec(w, steps).value.rows
    ensures Exec(w, steps).value.rows[r].state == PENDING ==>
              w.rows[r].state == PENDING && Exec(w, steps).value.rows[r].nextAttemptAt == w.rows[r].nextAttemptAt
  {
    if steps != [] {
      var before, last := steps[..|steps| - 1], steps[|steps| - 1];
      forall k | 0 <= k < |before| && Exec(w, before[..k]).Some? ensures !Releases(Exec(w, before[..k]).value, before[k], r) {
        assert before[..k] == steps[..k] && before[k] == steps[k];
      }
      hide Try, Releases;
      RunKeepsSchedule(w, before, r);
      assert !Releases(Exec(w, steps[..|steps| - 1]).value, last, r);
      StepKeepsSchedule(Exec(w, before).value, last, r);
    }
  }

  /** The wait after the attempt with this counter has failed, in seconds. */
  ghost function WaitAfter(attempt: nat): nat {
    if attempt == 0 then 30
    else if attempt == 1 then 120
    else if attempt == 2 then 600
    else if attempt == 3 then 1800
    else 3600
  }

  /** A recorded failure parks the row, or releases it and schedules it for within half a minute after the wait. */
  lemma FailureReschedules(w: World, t: TaskId, jitter: nat)
    requires Enabled(w, RecordFailure(t, jitter))
    ensures var a, row := w.attempts[t], Next(w, RecordFailure(t, jitter)).rows[w.attempts[t].row];
            var wait := row.nextAttemptAt - a.startedAt.value;
            && row.attempt == a.snapshot.attempt + 1 && row.claimedAt.None? && row.claimedBy.None?
            && (if a.outcome.permanent || a.snapshot.attempt >= 6 then row.state == RowState.FAILED
                else row.state == PENDING && 1000 * WaitAfter(a.snapshot.attempt) <= wait < 1000 * (WaitAfter(a.snapshot.attempt) + 30))
  {
    assert forall k: nat :: DelaySeconds(k) == WaitAfter(k);
  }

  /**
   After a failure recorded at one clock reading, no clock reading before the wait is over lets anybody
   claim the row, unless another failure is recorded on it or it is requeued in between.
   */
  lemma BackoffIsHonoured(w: World, t: TaskId, jitter: nat, steps: seq<Step>, v: World, u: TaskId, worker: WorkerId, now: Time)
    requires Enabled(w, RecordFailure(t, jitter))
    requires Exec(Next(w, RecordFailure(t, jitter)), steps) == Some(v)
    requires NeverReleased(Next(w, RecordFailure(t, jitter)), steps, w.attempts[t].row)
    requires Enabled(v, Step.Claim(u, w.attempts[t].row, worker, now))
    ensures var a := w.attempts[t];
            && !a.outcome.permanent && a.snapshot.attempt < 6
            && now >= a.startedAt.value + 1000 * WaitAfter(a.snapshot.attempt)
  {
    var failed := Next(w, RecordFailure(t, jitter));
    FailureReschedules(w, t, jitter);
    RowOfFailure(w, t, jitter);
    RunKeepsSchedule(failed, steps, w.attempts[t].row);
    ClaimedIsDue(v, u, w.attempts[t].row, worker, now);
    hide *;
  }

  lemma RowOfFailure(w: World, t: TaskId, jitter: nat)
    requires Enabled(w, RecordFailure(t, jitter))
    ensures t in w.attempts && w.attempts[t].outcome.Failed? && w.attempts[t].startedAt.Some?
    ensures w.attempts[t].row in Next(w, RecordFailure(t, jitter)).rows
  {}

  lemma ClaimedIsDue(w: World, t: TaskId, r: RowId, worker: WorkerId, now: Time)
    requires Enabled(w, Step.Claim(t, r, worker, now))
    ensures r in w.rows && Claimable(w.rows[r], now)
  {}

  function NextAt(w: World, r: RowId): Time {
    if r in w.rows then w.rows[r].nextAttemptAt else 0
  }

  lemma EarliestExists(w: World, due: set<RowId>) returns (earliest: RowId)
    requires due != {}
    ensures earliest in due && forall r :: r in due ==> NextAt(w, earliest) <= NextAt(w, r)
  {
    earliest :| earliest in due;
    if due != {earliest} {
      var other := EarliestExists(w, due - {earliest});
      if NextAt(w, other) < NextAt(w, earliest) {
        earliest := other;
      }
    }
  }

  /** `v` is `u` after row `r` too has been claimed, as attempt `t`. */
  ghost predicate OneMore(u: World, v: World, worker: WorkerId, now: Time, r: RowId, t: TaskId) {
    && r in u.rows
    && t !in u.attempts
    && v == u.(rows := u.rows[r := Stamped(u.rows[r], worker, now)],
               attempts := u.attempts[t := Attempt(r, Stamped(u.rows[r], worker, now), None, Waiting)])
  }

  lemma ClaimGrows(w: World, u: World, v: World, worker: WorkerId, now: Time, rows: seq<RowId>, tasks: seq<TaskId>, r: RowId, t: TaskId)
    requires Claimed(w, u, worker, now, rows, tasks)
    requires r in DueRows(w, now) && r !in rows && OneMore(u, v, worker, now, r, t)
    ensures CanClaim(u, t, r, now) && v == AfterClaim(u, t, r, worker, now)
    ensures Claimed(w, v, worker, now, rows + [r], tasks + [t])
  {
    ClaimGrowsRows(w, u, v, worker, now, rows, tasks, r, t);
    ClaimGrowsAttempts(w, u, v, worker, now, rows, tasks, r, t);
    assert CanClaim(u, t, r, now) && v == AfterClaim(u, t, r, worker, now) by {
      assert u.rows[r] == w.rows[r];
    }
    hide Stamped, CanClaim, AfterClaim;
    assert v == w.(rows := v.rows, attempts := v.attempts);
  }

  lemma ClaimGrowsRows(w: World, u: World, v: World, worker: WorkerId, now: Time, rows: seq<RowId>, tasks: seq<TaskId>, r: RowId, t: TaskId)
    requires Claimed(w, u, worker, now, rows, tasks)
    requires r in DueRows(w, now) && r !in rows && OneMore(u, v, worker, now, r, t)
    ensures v.rows == map q | q in w.rows :: if q in rows + [r] then Stamped(w.rows[q], worker, now) else w.rows[q]
  {
    hide Stamped;
    assert forall q :: q in rows + [r] <==> q in rows || q == r;
    assert u.rows[r] == w.rows[r];
  }

  lemma ClaimGrowsAttempts(w: World, u: World, v: World, worker: WorkerId, now: Time, rows: seq<RowId>, tasks: seq<TaskId>, r: RowId, t: TaskId)
    requires Claimed(w, u, worker, now, rows, tasks)
    requires r in DueRows(w, now) && r !in rows && OneMore(u, v, worker, now, r, t)
    ensures Distinct(rows + [r]) && Distinct(tasks + [t])
    ensures forall s :: s in tasks + [t] ==> s !in w.attempts && s in v.attempts
    ensures forall k :: 0 <= k < |tasks + [t]| ==>
              && (tasks + [t])[k] in v.attempts
              && (rows + [r])[k] in v.rows
              && v.attempts[(tasks + [t])[k]] == Attempt((rows + [r])[k], v.rows[(rows + [r])[k]], None, Waiting)
    ensures forall s :: s in v.attempts ==> s in w.attempts || s in tasks + [t]
  {
    hide Stamped, DueRows;
    forall k | 0 <= k < |tasks|
      ensures && tasks[k] in v.attempts
              && rows[k] in v.rows
              && v.attempts[tasks[k]] == Attempt(rows[k], v.rows[rows[k]], None, Waiting)
    {
      assert tasks[k] in tasks && rows[k] in rows;
    }
    assert forall s :: s in tasks + [t] <==> s in tasks || s == t;
  }

  // ---------------------------------------------------------------------- picking candidates

  /** `batch` was taken oldest first from the backlog, which leaves `remaining`. */
  ghost predicate Picked(w: World, batch: seq<InvoiceId>, remaining: set<InvoiceId>) {
    && |batch| + |remaining| == |Backlog(w)|
    && remaining <= Backlog(w)
    && (forall i :: i in batch ==> i in Backlog(w) && i !in remaining)
    && (forall i :: i in Backlog(w) ==> i in remaining || i in batch)
    && (forall j, k :: 0 <= j < k < |batch| ==> batch[j] != batch[k])
    && (forall j, k :: 0 <= j < k < |batch| ==> CreatedAt(w, batch[j]) <= CreatedAt(w, batch[k]))
    && (forall i, j :: i in batch && j in remaining ==> CreatedAt(w, i) <= CreatedAt(w, j))
  }

  lemma NonePicked(w: World)
    ensures Picked(w, [], Backlog(w))
  {}

  lemma PickedOneMore(w: World, batch: seq<InvoiceId>, remaining: set<InvoiceId>, i: InvoiceId)
    requires Picked(w, batch, remaining)
    requires i in remaining && forall j :: j in remaining ==> CreatedAt(w, i) <= CreatedAt(w, j)
    ensures Picked(w, batch + [i], remaining - {i})
  {
    hide Backlog, CreatedAt;
    assert forall j :: j in batch + [i] <==> j in batch || j == i;
    assert forall k :: 0 <= k < |batch| ==> batch[k] in batch;
  }

  lemma PickedIsBatch(w: World, limit: nat, batch: seq<InvoiceId>, remaining: set<InvoiceId>)
    requires Picked(w, batch, remaining) && |batch| <= limit && (|batch| == limit || remaining == {})
    ensures IsBatch(w, limit, batch)
  {
    forall k | 0 <= k < |batch| ensures batch[k] in w.invoices && CreatedAt(w, batch[k]) == w.invoices[batch[k]].createdAt {
      assert batch[k] in Backlog(w);
    }
  }

  lemma BatchIsDistinct(w: World, limit: nat, batch: seq<InvoiceId>)
    requires IsBatch(w, limit, batch)
    ensures |batch| == Min(limit, |Backlog(w)|)
    ensures forall k :: 0 <= k < |batch| ==> batch[k] in Backlog(w) && batch[k] !in batch[..k]
  {
    hide Backlog;
  }

  lemma NoMembers(batch: seq<InvoiceId>)
    ensures Members(batch[..0]) == {}
  {}

  lemma BatchMembers(batch: seq<InvoiceId>, k: nat)
    requires k < |batch|
    ensures Members(batch[..k + 1]) == Members(batch[..k]) + {batch[k]}
    ensures batch[k] !in batch[..k] ==> batch[k] !in Members(batch[..k])
  {
    assert batch[..k + 1] == batch[..k] + [batch[k]];
  }

  lemma ClaimStarts(w: World, worker: WorkerId, now: Time, due: set<RowId>)
    requires due == set r | r in w.rows && Due(w.rows[r], now)
    ensures Claimed(w, w, worker, now, [], []) && due == DueRows(w, now)
  {
    DueIsClaimable(now);
    hide Due, Claimable;
  }

  lemma ClaimedNextAt(w: World, u: World, worker: WorkerId, now: Time, rows: seq<RowId>, tasks: seq<TaskId>)
    requires Claimed(w, u, worker, now, rows, tasks)
    ensures forall r :: NextAt(u, r) == NextAt(w, r)
  {}

  lemma OldestInColumns(w: World, now: Time, limit: nat, rows: seq<RowId>)
    requires |rows| == Min(limit, |DueRows(w, now)|) && forall r :: r in rows ==> r in DueRows(w, now)
    requires forall j, k :: 0 <= j < k < |rows| ==> NextAt(w, rows[j]) <= NextAt(w, rows[k])
    requires forall r, q :: r in rows && q in DueRows(w, now) && q !in rows ==> NextAt(w, r) <= NextAt(w, q)
    ensures OldestDueFirst(w, now, limit, rows)
    ensures forall r :: r in rows ==> r in w.rows && Claimable(w.rows[r], now)
  {
    hide Claimable;
    forall k | 0 <= k < |rows| ensures rows[k] in w.rows && NextAt(w, rows[k]) == w.rows[rows[k]].nextAttemptAt {
      assert rows[k] in rows;
    }
  }

  lemma DueIsRow(w: World, u: World, worker: WorkerId, now: Time, rows: seq<RowId>, tasks: seq<TaskId>, r: RowId)
    requires Claimed(w, u, worker, now, rows, tasks) && r in DueRows(w, now)
    ensures r in u.rows
  {}

  lemma TracedClaim(w: World, trace: seq<Step>, t: TaskId, r: RowId, worker: WorkerId, now: Time)
    requires Exec(INITIAL, trace) == Some(w) && CanClaim(w, t, r, now)
    ensures Exec(INITIAL, trace + [Step.Claim(t, r, worker, now)]) == Some(AfterClaim(w, t, r, worker, now))
  {
    hide Exec, CanClaim, AfterClaim;
    Traced(w, trace, Step.Claim(t, r, worker, now));
  }

  lemma RemainingIsBacklog(w: World, remaining: set<InvoiceId>)
    requires remaining == set i | && i in w.invoices
                                  && w.invoices[i].direction == Issued
                                  && w.invoices[i].state == VALIDATED
                                  && (forall r :: r in w.rows ==> w.rows[r].invoice != i)
                                  && (exists c :: && c in w.connections
                                                  && w.connections[c].active
                                                  && w.connections[c].client == w.invoices[i].client)
    ensures remaining == Backlog(w)
  {}

  /** A candidate is always accepted, because issuance sealed it and nothing holds its key. */
  lemma WaitingIsAccepted(w: World, trace: seq<Step>, i: InvoiceId)
    requires Exec(INITIAL, trace) == Some(w) && i in Backlog(w)
    ensures i in w.invoices && KeyOf(w, i).Some? && Refusal(w, i) == None && !KeyTaken(w, KeyOf(w, i).value)
  {
    ReachableSealed(w);
    ReachableInv(w);
    hide Inv, KeyOf;
    forall r | r in w.rows ensures w.rows[r].key != KeyOf(w, i).value {
      RowHasOwnKey(w, r);
      KeyNamesInvoice(w, i);
    }
  }

  lemma RowHasOwnKey(w: World, r: RowId)
    requires Inv(w) && r in w.rows
    ensures w.rows[r].key.invoice == w.rows[r].invoice
  {
    assert RowOk(w, r);
  }

  lemma KeyNamesInvoice(w: World, i: InvoiceId)
    requires i in w.invoices && KeyOf(w, i).Some?
    ensures KeyOf(w, i).value.invoice == i
  {}

  lemma QueuedLeavesBacklog(w: World, i: InvoiceId, now: Time, answer: Result<EnqueueResult, EnqueueError>, v: World)
    requires Enqueues(w, i, now, answer, v) && i in w.invoices
    requires KeyOf(w, i).Some? && Refusal(w, i) == None && !KeyTaken(w, KeyOf(w, i).value)
    ensures answer.Ok? && !answer.value.alreadyQueued
    ensures Backlog(v) == Backlog(w) - {i}
  {
    hide KeyOf, KeyTaken, Refusal;
    RowLeavesBacklog(w, v, i, answer.value.row);
  }

  /** The three steps an uninterrupted enqueue takes. */
  ghost function EnqueueTrace(w: World, trace: seq<Step>, t: TaskId, i: InvoiceId, c: ConnectionId, r: RowId, now: Time, v: World): (longer: seq<Step>)
    requires Exec(INITIAL, trace) == Some(w) && t !in w.enqueues
    requires i in w.invoices && w.invoices[i].direction == Issued && KeyOf(w, i).Some?
    requires c in w.connections && w.connections[c].active && w.connections[c].client == w.invoices[i].client
    requires r !in w.rows && !KeyTaken(w, KeyOf(w, i).value) && v == Queued(w, i, c, r, now)
    ensures Exec(INITIAL, longer) == Some(v)
  {
    EnqueueRuns(w, trace, t, i, c, r, now);
    trace + [ReadInvoice(t, i)] + [ReadConnection(t, c)] + [Insert(t, r, now)]
  }

  lemma EnqueueRuns(w: World, trace: seq<Step>, t: TaskId, i: InvoiceId, c: ConnectionId, r: RowId, now: Time)
    requires Exec(INITIAL, trace) == Some(w) && t !in w.enqueues
    requires i in w.invoices && w.invoices[i].direction == Issued && KeyOf(w, i).Some?
    requires c in w.connections && w.connections[c].active && w.connections[c].client == w.invoices[i].client
    requires r !in w.rows && !KeyTaken(w, KeyOf(w, i).value)
    ensures Exec(INITIAL, trace + [ReadInvoice(t, i)] + [ReadConnection(t, c)] + [Insert(t, r, now)])
            == Some(Queued(w, i, c, r, now))
  {
    hide Exec, KeyOf;
    Traced(w, trace, ReadInvoice(t, i));
    var read := AfterReadInvoice(w, t, i);
    Traced(read, trace + [ReadInvoice(t, i)], ReadConnection(t, c));
    var routed := AfterReadConnection(read, t, c);
    assert routed.rows == w.rows && CanInsert(routed, t, r);
    Traced(routed, trace + [ReadInvoice(t, i)] + [ReadConnection(t, c)], Insert(t, r, now));
    assert AfterInsert(routed, t, r, now).enqueues == w.enqueues;
    assert AfterInsert(routed, t, r, now) == Queued(w, i, c, r, now);
  }

  // ---------------------------------------------------------------------- one attempt

  /** An attempt as `Claim` left it, with everything it refers to in place. */
  ghost predicate Ready(w: World, t: TaskId) {
    && IsClaimed(w, t)
    && HasDocumentId(w, w.attempts[t].row)
    && w.attempts[t].snapshot.invoice in w.invoices
  }

  predicate IsClaimed(w: World, t: TaskId) {
    t in w.attempts && w.attempts[t].startedAt.None? && w.attempts[t].outcome == Waiting
  }

  lemma ClaimedIsReady(w: World, t: TaskId)
    requires Reachable(w) && IsClaimed(w, t)
    ensures Ready(w, t)
  {
    ReachableInv(w);
    AttemptIsOk(w, t);
    hide Inv;
  }

  /** A platform never mints an identifier twice. */
  ghost predicate Answers(w: World, t: TaskId, answer: Answer) {
    (answer.Lost? || answer.Delivered?) && IsClaimed(w, t) && HasDocumentId(w, w.attempts[t].row) ==>
      || DocumentOf(w, w.attempts[t].row) in w.documents
      || FreshReceipt(w, DocumentOf(w, w.attempts[t].row).provider, answer.receipt)
  }

  /** What the platforms hold afterwards: a first acceptance adds a document, a replay adds nothing. */
  ghost function Held(documents: map<DocumentId, Receipt>, d: DocumentId, answer: Answer): map<DocumentId, Receipt> {
    if (answer.Lost? || answer.Delivered?) && d !in documents then documents[d := answer.receipt] else documents
  }

  function OutcomeOf(attempt: nat, answer: Answer): AttemptOutcome {
    match answer
    case Delivered(_) => SentOut
    case Untransmittable => Parked
    case _ => if attempt >= MAX_ATTEMPTS then Parked else WillRetry
  }

  /** What an attempt writes over `row`; the counter and the schedule come from the snapshot it claimed. */
  function SettledRow(row: Row, snapshot: Row, outcome: AttemptOutcome, externalId: ExternalId, now: Time, jitter: nat): Row {
    var free := row.(claimedAt := None, claimedBy := None);
    match outcome
    case SentOut => free.(state := SENT, externalId := Some(externalId))
    case Parked => free.(state := RowState.FAILED, attempt := snapshot.attempt + 1, nextAttemptAt := snapshot.nextAttemptAt)
    case WillRetry =>
      free.(state := PENDING, attempt := snapshot.attempt + 1,
            nextAttemptAt := now + (DelaySeconds(snapshot.attempt) + jitter) * 1000)
  }

  /** The receipt a successful attempt reads: the first one minted for its document. */
  ghost function ReceiptOf(documents: map<DocumentId, Receipt>, d: DocumentId, answer: Answer): Receipt {
    if d in Held(documents, d, answer) then Held(documents, d, answer)[d] else Receipt(0, 0)
  }

  /** The world after an uninterrupted attempt, whether or not its lease still holds. */
  ghost function Attempted(w: World, t: TaskId, answer: Answer, now: Time, jitter: nat): World
    requires Ready(w, t)
  {
    var a := w.attempts[t];
    var d := DocumentOf(w, a.row);
    var i := a.snapshot.invoice;
    var outcome := OutcomeOf(a.snapshot.attempt, answer);
    var receipt := ReceiptOf(w.documents, d, answer);
    var event := match outcome
      case SentOut => Status(i, DEPOSEE, receipt.acceptedAt)
      case Parked => Status(i, TRANSMISSION_ABANDONNEE, now)
      case WillRetry => Status(i, TRANSMISSION_ECHOUEE, now);
    var state := if outcome == SentOut then Advanced(w.invoices[i].state, DEPOSEE) else w.invoices[i].state;
    w.(documents := Held(w.documents, d, answer),
       attempts := w.attempts - {t},
       rows := w.rows[a.row := SettledRow(w.rows[a.row], a.snapshot, outcome, receipt.externalId, now, jitter)],
       history := w.history + {event},
       invoices := w.invoices[i := w.invoices[i].(state := state)])
  }

  lemma AttemptedSent(w: World, t: TaskId, answer: Answer, now: Time, jitter: nat)
    requires Ready(w, t) && answer.Delivered?
    ensures var a := w.attempts[t];
            var d, i := DocumentOf(w, a.row), a.snapshot.invoice;
            var documents := Held(w.documents, d, answer);
            && d in documents
            && OutcomeOf(a.snapshot.attempt, answer) == SentOut
            && Attempted(w, t, answer, now, jitter) == w.(
                 documents := documents,
                 attempts := w.attempts - {t},
                 rows := w.rows[a.row := w.rows[a.row].(state := SENT, externalId := Some(documents[d].externalId), claimedAt := None, claimedBy := None)],
                 history := w.history + {Status(i, DEPOSEE, documents[d].acceptedAt)},
                 invoices := w.invoices[i := w.invoices[i].(state := Advanced(w.invoices[i].state, DEPOSEE))])
  {}

  lemma AttemptedFailed(w: World, t: TaskId, answer: Answer, now: Time, jitter: nat, park: bool)
    requires Ready(w, t) && !answer.Delivered?
    requires park <==> answer.Untransmittable? || w.attempts[t].snapshot.attempt + 1 > MAX_ATTEMPTS
    ensures var a := w.attempts[t];
            var outcome := if park then Parked else WillRetry;
            && OutcomeOf(a.snapshot.attempt, answer) == outcome
            && Attempted(w, t, answer, now, jitter) == w.(
                 documents := Held(w.documents, DocumentOf(w, a.row), answer),
                 attempts := w.attempts - {t},
                 rows := w.rows[a.row := SettledRow(w.rows[a.row], a.snapshot, outcome, 0, now, jitter)],
                 history := w.history + {Status(a.snapshot.invoice, if park then TRANSMISSION_ABANDONNEE else TRANSMISSION_ECHOUEE, now)})
  {
    assert w.invoices == Attempted(w, t, answer, now, jitter).invoices;
  }

  /** The steps it stands for. */
  ghost function AttemptSteps(t: TaskId, answer: Answer, now: Time, jitter: nat): seq<Step> {
    match answer
    case Delivered(receipt) => [Begin(t, now), Send(t, receipt, true), Step.RecordSent(t, true)]
    case Lost(receipt) => [Begin(t, now), Send(t, receipt, false), Step.RecordFailure(t, jitter)]
    case Untransmittable => [Begin(t, now), Fail(t, true), Step.RecordFailure(t, jitter)]
    case Unreachable => [Begin(t, now), Fail(t, false), Step.RecordFailure(t, jitter)]
  }

  lemma TracedThree(w: World, trace: seq<Step>, one: Step, two: Step, three: Step)
    requires Exec(INITIAL, trace) == Some(w)
    requires Enabled(w, one) && Enabled(Next(w, one), two) && Enabled(Next(Next(w, one), two), three)
    ensures Exec(INITIAL, trace + [one, two, three]) == Some(Next(Next(Next(w, one), two), three))
  {
    hide Exec, Try;
    Traced(w, trace, one);
    Traced(Next(w, one), trace + [one], two);
    Traced(Next(Next(w, one), two), trace + [one] + [two], three);
    assert trace + [one] + [two] + [three] == trace + [one, two, three];
  }

  lemma AttemptRuns(w: World, trace: seq<Step>, t: TaskId, answer: Answer, now: Time, jitter: nat)
    requires Exec(INITIAL, trace) == Some(w) && Ready(w, t) && Answers(w, t, answer)
    requires IsJitter(jitter, w.attempts[t].snapshot.attempt)
    ensures Exec(INITIAL, trace + AttemptSteps(t, answer, now, jitter)) == Some(Attempted(w, t, answer, now, jitter))
  {
    hide Exec;
    var begun := AfterBegin(w, t, now);
    match answer
    case Delivered(receipt) => SendRuns(w, trace, t, receipt, now);
    case Lost(receipt) => LossRuns(w, trace, t, receipt, now, jitter);
    case _ => FailureRuns(w, trace, t, answer.Untransmittable?, now, jitter);
  }

  /** The world just before the success is recorded. */
  ghost function Accepting(w: World, t: TaskId, receipt: Receipt, now: Time): World
    requires Ready(w, t)
  {
    var d := DocumentOf(w, w.attempts[t].row);
    var documents := Held(w.documents, d, Delivered(receipt));
    var a := w.attempts[t].(startedAt := Some(now), outcome := Accepted(ReceiptOf(w.documents, d, Delivered(receipt))));
    w.(documents := documents, attempts := w.attempts[t := a])
  }

  lemma SuccessSent(w: World, t: TaskId, receipt: Receipt, now: Time)
    requires Ready(w, t) && Answers(w, t, Delivered(receipt))
    ensures CanBegin(w, t) && CanSend(AfterBegin(w, t, now), t, receipt)
    ensures AfterSend(AfterBegin(w, t, now), t, receipt, true) == Accepting(w, t, receipt, now)
  {}

  lemma SuccessRecorded(w: World, t: TaskId, receipt: Receipt, now: Time)
    requires Ready(w, t)
    ensures CanRecordSent(Accepting(w, t, receipt, now), t)
    ensures AfterRecordSent(Accepting(w, t, receipt, now), t, true) == Attempted(w, t, Delivered(receipt), now, 0)
  {
    hide Advanced, ReceiptOf, Held;
    assert AfterRecordSent(Accepting(w, t, receipt, now), t, true).attempts == w.attempts - {t};
  }

  lemma SendRuns(w: World, trace: seq<Step>, t: TaskId, receipt: Receipt, now: Time)
    requires Exec(INITIAL, trace) == Some(w) && Ready(w, t) && Answers(w, t, Delivered(receipt))
    ensures Exec(INITIAL, trace + [Begin(t, now), Send(t, receipt, true), Step.RecordSent(t, true)])
            == Some(Attempted(w, t, Delivered(receipt), now, 0))
  {
    hide Exec, Attempted, CanSend, AfterSend, CanRecordSent, AfterRecordSent, Answers, Ready, Accepting;
    SuccessSent(w, t, receipt, now);
    SuccessRecorded(w, t, receipt, now);
    TracedThree(w, trace, Begin(t, now), Send(t, receipt, true), Step.RecordSent(t, true));
  }

  /** The world just before the failure is recorded: only the platform and this attempt have moved. */
  ghost function Failing(w: World, t: TaskId, answer: Answer, now: Time): World
    requires Ready(w, t)
  {
    var a := w.attempts[t].(startedAt := Some(now), outcome := Failed(answer.Untransmittable?));
    w.(documents := Held(w.documents, DocumentOf(w, a.row), answer), attempts := w.attempts[t := a])
  }

  lemma FailureRecorded(w: World, t: TaskId, answer: Answer, now: Time, jitter: nat)
    requires Ready(w, t) && !answer.Delivered? && IsJitter(jitter, w.attempts[t].snapshot.attempt)
    ensures CanRecordFailure(Failing(w, t, answer, now), t, jitter)
    ensures AfterRecordFailure(Failing(w, t, answer, now), t, jitter) == Attempted(w, t, answer, now, jitter)
  {
    var failing := Failing(w, t, answer, now);
    var next := AfterRecordFailure(failing, t, jitter);
    assert next.attempts == w.attempts - {t};
    assert w.invoices == Attempted(w, t, answer, now, jitter).invoices;
    hide Held, DelaySeconds, DocumentOf;
  }

  lemma LossSent(w: World, t: TaskId, receipt: Receipt, now: Time)
    requires Ready(w, t) && Answers(w, t, Lost(receipt))
    ensures CanBegin(w, t) && CanSend(AfterBegin(w, t, now), t, receipt)
    ensures AfterSend(AfterBegin(w, t, now), t, receipt, false) == Failing(w, t, Lost(receipt), now)
  {}

  lemma LossRuns(w: World, trace: seq<Step>, t: TaskId, receipt: Receipt, now: Time, jitter: nat)
    requires Exec(INITIAL, trace) == Some(w) && Ready(w, t) && Answers(w, t, Lost(receipt))
    requires IsJitter(jitter, w.attempts[t].snapshot.attempt)
    ensures Exec(INITIAL, trace + [Begin(t, now), Send(t, receipt, false), Step.RecordFailure(t, jitter)])
            == Some(Attempted(w, t, Lost(receipt), now, jitter))
  {
    hide Exec, Attempted, CanRecordFailure, AfterRecordFailure;
    FailureRecorded(w, t, Lost(receipt), now, jitter);
    LossSent(w, t, receipt, now);
    hide CanSend, AfterSend, Failing, Answers, Ready;
    TracedThree(w, trace, Begin(t, now), Send(t, receipt, false), Step.RecordFailure(t, jitter));
  }

  lemma FailureRuns(w: World, trace: seq<Step>, t: TaskId, permanent: bool, now: Time, jitter: nat)
    requires Exec(INITIAL, trace) == Some(w) && Ready(w, t)
    requires IsJitter(jitter, w.attempts[t].snapshot.attempt)
    ensures Exec(INITIAL, trace + [Begin(t, now), Fail(t, permanent), Step.RecordFailure(t, jitter)])
            == Some(Attempted(w, t, if permanent then Untransmittable else Unreachable, now, jitter))
  {
    hide Exec, Attempted, CanRecordFailure, AfterRecordFailure;
    var answer := if permanent then Untransmittable else Unreachable;
    FailureRecorded(w, t, answer, now, jitter);
    assert AfterFail(AfterBegin(w, t, now), t, permanent) == Failing(w, t, answer, now);
    TracedThree(w, trace, Begin(t, now), Fail(t, permanent), Step.RecordFailure(t, jitter));
  }

  /**
   Once a reply was lost, whatever else happens before it, a success of the same row records the
   identifier minted then and creates no second document.
   */
  lemma LostReplyIsRecovered(w: World, t: TaskId, lost: Receipt, now: Time, v: World, u: TaskId, minted: Receipt, later: Time, jitter: nat)
    requires Ready(w, t) && w.attempts[t].row in w.rows && DocumentOf(w, w.attempts[t].row) !in w.documents
    requires Extends(Attempted(w, t, Lost(lost), now, jitter), v)
    requires Ready(v, u) && v.attempts[u].row == w.attempts[t].row
    ensures var after := Attempted(v, u, Delivered(minted), later, jitter);
            after.documents == v.documents && after.rows[v.attempts[u].row].externalId == Some(lost.externalId)
  {
    var r, after := w.attempts[t].row, Attempted(w, t, Lost(lost), now, jitter);
    assert after.connections == w.connections && HasDocumentId(after, r) && DocumentOf(after, r) == DocumentOf(w, r);
    assert DocumentOf(after, r) in after.documents && after.documents[DocumentOf(after, r)] == lost;
    SameDocument(after, v, r);
    hide Extends;
  }

  lemma SameDocument(w: World, v: World, r: RowId)
    requires Extends(w, v) && HasDocumentId(w, r) && DocumentOf(w, r) in w.documents
    ensures HasDocumentId(v, r) && DocumentOf(v, r) == DocumentOf(w, r)
    ensures DocumentOf(v, r) in v.documents && v.documents[DocumentOf(v, r)] == w.documents[DocumentOf(w, r)]
  {}

  // ---------------------------------------------------------------------- one drain

  /** What an attempt meets: the platform's answer, the clock, and the jitter drawn. */
  datatype Reply = Reply(answer: Answer, now: Time, jitter: nat)

  predicate Minting(answer: Answer) {
    answer.Lost? || answer.Delivered?
  }

  /** The identifiers minted are new to every platform and to each other. */
  ghost predicate FreshReplies(w: World, replies: seq<Reply>) {
    && (forall k :: 0 <= k < |replies| ==> replies[k].jitter < 30)
    && (forall k, d :: 0 <= k < |replies| && Minting(replies[k].answer) && d in w.documents ==>
          w.documents[d].externalId != replies[k].answer.receipt.externalId)
    && (forall j, k :: (0 <= j < k < |replies| && Minting(replies[j].answer) && Minting(replies[k].answer)) ==>
          replies[j].answer.receipt.externalId != replies[k].answer.receipt.externalId)
  }

  ghost predicate AreRows(w: World, rows: seq<RowId>) {
    Distinct(rows) && forall k :: 0 <= k < |rows| ==> HasDocumentId(w, rows[k])
  }

  ghost function Outcome(w: World, r: RowId, reply: Reply): AttemptOutcome
    requires r in w.rows
  {
    OutcomeOf(w.rows[r].attempt, reply.answer)
  }

  ghost function Outcomes(w: World, rows: seq<RowId>, replies: seq<Reply>): seq<AttemptOutcome>
    requires AreRows(w, rows) && |rows| <= |replies|
  {
    seq(|rows|, k requires 0 <= k < |rows| => Outcome(w, rows[k], replies[k]))
  }

  /** The row `r` of `w` once its attempt has met `reply`. */
  ghost function Settled(w: World, r: RowId, reply: Reply): Row
    requires HasDocumentId(w, r)
  {
    SettledRow(w.rows[r], w.rows[r], Outcome(w, r, reply), ReceiptOf(w.documents, DocumentOf(w, r), reply.answer).externalId,
               reply.now, reply.jitter)
  }

  /** Each claimed row met its reply, no other row moved, and the report counts the outcomes. */
  ghost predicate Drained(w: World, v: World, rows: seq<RowId>, replies: seq<Reply>, report: DrainReport) {
    && AreRows(w, rows) && |rows| <= |replies|
    && (forall k :: 0 <= k < |rows| ==> rows[k] in v.rows && v.rows[rows[k]] == Settled(w, rows[k], replies[k]))
    && (forall k :: 0 <= k < |rows| && Minting(replies[k].answer) ==> DocumentOf(w, rows[k]) in v.documents)
    && v.rows.Keys == w.rows.Keys
    && (forall r :: r in w.rows && r !in rows ==> v.rows[r] == w.rows[r])
    && report == DrainReport(|rows|, multiset(Outcomes(w, rows, replies))[SentOut],
                             multiset(Outcomes(w, rows, replies))[WillRetry], multiset(Outcomes(w, rows, replies))[Parked])
  }

  lemma {:induction false} OutcomesAddUp(outcomes: seq<AttemptOutcome>)
    ensures multiset(outcomes)[SentOut] + multiset(outcomes)[WillRetry] + multiset(outcomes)[Parked] == |outcomes|
  {
    if outcomes != [] {
      OutcomesAddUp(outcomes[1..]);
      assert outcomes == [outcomes[0]] + outcomes[1..];
      match outcomes[0]
      case SentOut => assert multiset(outcomes) == multiset{SentOut} + multiset(outcomes[1..]);
      case WillRetry => assert multiset(outcomes) == multiset{WillRetry} + multiset(outcomes[1..]);
      case Parked => assert multiset(outcomes) == multiset{Parked} + multiset(outcomes[1..]);
    }
  }

  ghost predicate StillClaimed(w: World, v: World, r: RowId, t: TaskId) {
    && r in w.rows && r in v.rows
    && t in v.attempts
    && v.attempts[t] == Attempt(r, v.rows[r], None, Waiting)
    && exists worker, now :: v.rows[r] == Stamped(w.rows[r], worker, now)
  }

  /** Half way through a drain: the first `done` attempts have run. */
  ghost predicate Draining(w: World, v: World, rows: seq<RowId>, tasks: seq<TaskId>, replies: seq<Reply>, done: nat) {
    && AreRows(w, rows) && |rows| == |tasks| <= |replies| && done <= |rows| && Distinct(tasks)
    && v.connections == w.connections && v.rows.Keys == w.rows.Keys
    && (forall r :: r in w.rows && r !in rows ==> v.rows[r] == w.rows[r])
    && (forall k :: 0 <= k < done ==> v.rows[rows[k]] == Settled(w, rows[k], replies[k]))
    && (forall k :: 0 <= k < done && Minting(replies[k].answer) ==> DocumentOf(w, rows[k]) in v.documents)
    && (forall k :: done <= k < |rows| ==> StillClaimed(w, v, rows[k], tasks[k]))
    && (forall d :: d in w.documents ==> d in v.documents && v.documents[d] == w.documents[d])
    && (forall d :: d in v.documents && d !in w.documents ==> MintedBy(w, rows, replies, done, d, v.documents[d]))
  }

  ghost predicate MintedBy(w: World, rows: seq<RowId>, replies: seq<Reply>, done: nat, d: DocumentId, receipt: Receipt)
    requires AreRows(w, rows) && done <= |rows| <= |replies|
  {
    exists k :: 0 <= k < done && Minting(replies[k].answer) && replies[k].answer.receipt == receipt && DocumentOf(w, rows[k]) == d
  }

  lemma DrainStarts(w: World, v: World, worker: WorkerId, now: Time, rows: seq<RowId>, tasks: seq<TaskId>, replies: seq<Reply>)
    requires Inv(w) && Claimed(w, v, worker, now, rows, tasks) && |rows| <= |replies|
    ensures Draining(w, v, rows, tasks, replies, 0) && DrainedSoFar(w, rows, replies, 0, [])
  {
    forall k | 0 <= k < |rows| ensures HasDocumentId(w, rows[k]) && StillClaimed(w, v, rows[k], tasks[k]) {
      ClaimHolds(w, v, worker, now, rows, tasks, k);
    }
    hide Inv, StillClaimed, Stamped, HasDocumentId, DueRows;
  }

  lemma ClaimFits(w: World, v: World, worker: WorkerId, now: Time, rows: seq<RowId>, tasks: seq<TaskId>, limit: nat)
    requires Claimed(w, v, worker, now, rows, tasks) && OldestDueFirst(w, now, limit, rows)
    ensures |rows| == |tasks| <= limit && v.documents == w.documents
  {}

  lemma ClaimHolds(w: World, v: World, worker: WorkerId, now: Time, rows: seq<RowId>, tasks: seq<TaskId>, k: nat)
    requires Inv(w) && Claimed(w, v, worker, now, rows, tasks) && k < |rows|
    ensures HasDocumentId(w, rows[k]) && StillClaimed(w, v, rows[k], tasks[k])
  {
    assert rows[k] in rows;
    RowIsOk(w, rows[k]) by {
      hide Inv, Stamped;
    }
    hide Inv;
    assert v.rows[rows[k]] == Stamped(w.rows[rows[k]], worker, now);
  }

  /** Two rows never stand for the same document. */
  lemma RowsHaveOwnDocuments(w: World, r: RowId, q: RowId)
    requires Inv(w) && HasDocumentId(w, r) && HasDocumentId(w, q) && r != q
    ensures DocumentOf(w, r) != DocumentOf(w, q)
  {}

  lemma NextIsNotMinted(w: World, v: World, rows: seq<RowId>, tasks: seq<TaskId>, replies: seq<Reply>, done: nat)
    requires Inv(w) && Draining(w, v, rows, tasks, replies, done) && done < |rows|
    ensures DocumentOf(w, rows[done]) in v.documents <==> DocumentOf(w, rows[done]) in w.documents
  {
    hide Settled, Inv;
    var d := DocumentOf(w, rows[done]);
    if d in v.documents && d !in w.documents {
      assert MintedBy(w, rows, replies, done, d, v.documents[d]);
      var k :| 0 <= k < done && Minting(replies[k].answer) && DocumentOf(w, rows[k]) == d;
      RowsHaveOwnDocuments(w, rows[k], rows[done]);
    }
  }

  lemma NextReplyIsFresh(w: World, v: World, rows: seq<RowId>, tasks: seq<TaskId>, replies: seq<Reply>, done: nat)
    requires Draining(w, v, rows, tasks, replies, done) && done < |rows| && FreshReplies(w, replies)
    ensures HasDocumentId(v, rows[done]) && DocumentOf(v, rows[done]) == DocumentOf(w, rows[done])
    ensures IsClaimed(v, tasks[done]) && Answers(v, tasks[done], replies[done].answer)
  {
    hide Settled;
    var answer := replies[done].answer;
    if Minting(answer) {
      forall e | e in v.documents ensures v.documents[e].externalId != answer.receipt.externalId {
        if e !in w.documents {
          assert MintedBy(w, rows, replies, done, e, v.documents[e]);
        }
      }
    }
  }

  /** A row still carrying its stamp settles as the row before the claim would have. */
  lemma StampDoesNotMatter(w: World, v: World, r: RowId, t: TaskId, reply: Reply)
    requires HasDocumentId(w, r) && Ready(v, t) && v.attempts[t].row == r && v.connections == w.connections
    requires exists worker, now :: v.rows[r] == Stamped(w.rows[r], worker, now)
    requires v.attempts[t].snapshot == v.rows[r]
    requires DocumentOf(w, r) in v.documents <==> DocumentOf(w, r) in w.documents
    requires DocumentOf(w, r) in w.documents ==> v.documents[DocumentOf(w, r)] == w.documents[DocumentOf(w, r)]
    ensures Attempted(v, t, reply.answer, reply.now, reply.jitter).rows == v.rows[r := Settled(w, r, reply)]
    ensures Attempted(v, t, reply.answer, reply.now, reply.jitter).documents == Held(v.documents, DocumentOf(w, r), reply.answer)
  {
    hide OutcomeOf, DelaySeconds;
    assert DocumentOf(v, r) == DocumentOf(w, r);
  }

  lemma DrainAdvances(w: World, v: World, rows: seq<RowId>, tasks: seq<TaskId>, replies: seq<Reply>, done: nat, next: World)
    requires Inv(w) && Draining(w, v, rows, tasks, replies, done) && done < |rows|
    requires Ready(v, tasks[done])
    requires next == Attempted(v, tasks[done], replies[done].answer, replies[done].now, replies[done].jitter)
    ensures Draining(w, next, rows, tasks, replies, done + 1)
    ensures OutcomeOf(v.attempts[tasks[done]].snapshot.attempt, replies[done].answer) == Outcome(w, rows[done], replies[done])
  {
    NextIsNotMinted(w, v, rows, tasks, replies, done);
    StampDoesNotMatter(w, v, rows[done], tasks[done], replies[done]);
    DrainGrows(w, v, rows, tasks, replies, done, next) by {
      hide Inv, Draining, Held, Settled;
    }
    hide Inv, Attempted;
  }

  lemma DrainGrows(w: World, v: World, rows: seq<RowId>, tasks: seq<TaskId>, replies: seq<Reply>, done: nat, next: World)
    requires Draining(w, v, rows, tasks, replies, done) && done < |rows|
    requires next.connections == v.connections && next.attempts == v.attempts - {tasks[done]}
    requires next.rows == v.rows[rows[done] := Settled(w, rows[done], replies[done])]
    requires next.documents == Held(v.documents, DocumentOf(w, rows[done]), replies[done].answer)
    ensures Draining(w, next, rows, tasks, replies, done + 1)
  {
    hide Settled, Stamped, Held, MintedBy;
    DrainGrowsDocuments(w, v, rows, tasks, replies, done, next);
    assert rows[done] in rows;
    assert next.rows.Keys == w.rows.Keys;
    forall k | done + 1 <= k < |rows|
      ensures StillClaimed(w, next, rows[k], tasks[k])
    {
      assert StillClaimed(w, v, rows[k], tasks[k]);
      assert rows[k] != rows[done] && tasks[k] != tasks[done];
    }
    hide StillClaimed;
  }

  lemma DrainGrowsDocuments(w: World, v: World, rows: seq<RowId>, tasks: seq<TaskId>, replies: seq<Reply>, done: nat, next: World)
    requires Draining(w, v, rows, tasks, replies, done) && done < |rows|
    requires next.documents == Held(v.documents, DocumentOf(w, rows[done]), replies[done].answer)
    ensures Minting(replies[done].answer) ==> DocumentOf(w, rows[done]) in next.documents
    ensures forall d :: d in v.documents ==> d in next.documents && next.documents[d] == v.documents[d]
    ensures forall d :: d in next.documents && d !in w.documents ==> MintedBy(w, rows, replies, done + 1, d, next.documents[d])
  {
    var d := DocumentOf(w, rows[done]);
    forall e | e in next.documents && e !in w.documents ensures MintedBy(w, rows, replies, done + 1, e, next.documents[e]) {
      if e in v.documents {
        assert MintedBy(w, rows, replies, done, e, v.documents[e]);
      } else {
        assert e == d && Minting(replies[done].answer) && replies[done].answer.receipt == next.documents[d];
      }
    }
  }

  ghost predicate DrainedSoFar(w: World, rows: seq<RowId>, replies: seq<Reply>, done: nat, outcomes: seq<AttemptOutcome>) {
    && AreRows(w, rows) && done <= |rows| <= |replies| && |outcomes| == done
    && forall k :: 0 <= k < done ==> outcomes[k] == Outcome(w, rows[k], replies[k])
  }

  lemma OutcomesGrow(w: World, rows: seq<RowId>, replies: seq<Reply>, done: nat, outcomes: seq<AttemptOutcome>, outcome: AttemptOutcome)
    requires DrainedSoFar(w, rows, replies, done, outcomes) && done < |rows| && outcome == Outcome(w, rows[done], replies[done])
    ensures DrainedSoFar(w, rows, replies, done + 1, outcomes + [outcome])
  {}

  lemma JitterIsAllowed(w: World, replies: seq<Reply>, k: nat, v: World, t: TaskId)
    requires FreshReplies(w, replies) && k < |replies| && IsClaimed(v, t)
    ensures IsJitter(replies[k].jitter, v.attempts[t].snapshot.attempt)
  {}

  lemma DrainEnds(w: World, v: World, rows: seq<RowId>, tasks: seq<TaskId>, replies: seq<Reply>,
                  outcomes: seq<AttemptOutcome>, report: DrainReport)
    requires Draining(w, v, rows, tasks, replies, |rows|) && DrainedSoFar(w, rows, replies, |rows|, outcomes)
    requires report == DrainReport(|rows|, multiset(outcomes)[SentOut], multiset(outcomes)[WillRetry], multiset(outcomes)[Parked])
    ensures Drained(w, v, rows, replies, report)
    ensures report.claimed == report.sent + report.failed + report.parked
  {
    hide Outcome, Settled;
    assert outcomes == Outcomes(w, rows, replies);
    OutcomesAddUp(outcomes);
  }

  // ---------------------------------------------------------------------- manual retry

  datatype RetryError = UnknownRow | AlreadySent

  ghost predicate Retried(w: World, r: RowId, now: Time, answer: Result<(), RetryError>, v: World) {
    if r !in w.rows then answer == Err(UnknownRow) && v == w
    else if w.rows[r].state == SENT || w.rows[r].state == ACKNOWLEDGED then answer == Err(AlreadySent) && v == w
    else
      && answer == Ok(())
      && r in v.rows
      && Due(v.rows[r], now)
      && v.rows[r].attempt == 0
      && SameRow(w.rows[r], v.rows[r])
      && v.rows[r].externalId == w.rows[r].externalId
      && v == w.(rows := w.rows[r := v.rows[r]])
  }

  lemma RetryRuns(w: World, trace: seq<Step>, t: TaskId, r: RowId, now: Time)
    requires Exec(INITIAL, trace) == Some(w) && t !in w.retries
    requires r in w.rows && w.rows[r].state != SENT && w.rows[r].state != ACKNOWLEDGED
    ensures Exec(INITIAL, trace + [ReadRow(t, r)] + [Requeue(t, now)])
            == Some(w.(rows := w.rows[r := w.rows[r].(state := PENDING, nextAttemptAt := now, attempt := 0, claimedAt := None, claimedBy := None)]))
  {
    hide Exec;
    Traced(w, trace, ReadRow(t, r));
    Traced(AfterReadRow(w, t, r), trace + [ReadRow(t, r)], Requeue(t, now));
    assert AfterRequeue(AfterReadRow(w, t, r), t, now).retries == w.retries;
  }
}
