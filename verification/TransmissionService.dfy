/** The transmission queue as the service runs it: each call, run on its own, is a run of the protocol. */
module TransmissionService {
  import opened Prelude
  import opened Lifecycle
  import opened Pdp
  import opened PdpSafety
  import opened Sweep
  import opened TransmissionSpec

  class Service {
    var db: World
    /** Every step taken since the empty world, this process's and everyone else's. */
    ghost var trace: seq<Step>

    ghost predicate Valid()
      reads this
    {
      Exec(INITIAL, trace) == Some(db)
    }

    constructor ()
      ensures Valid() && db == INITIAL
    {
      db := INITIAL;
      trace := [];
    }

    method Enqueue(i: InvoiceId, now: Time) returns (answer: Result<EnqueueResult, EnqueueError>)
      requires Valid()
      modifies this
      ensures Valid()
      ensures Enqueues(old(db), i, now, answer, db)
    {
      ghost var w := db;
      if i !in db.invoices {
        return Err(UnknownInvoice);
      }
      KeyIsOfHandover(db, i);
      hide IsHandover, Find;
      var invoice := db.invoices[i];
      if invoice.direction != Issued {
        return Err(NotIssued);
      }
      var artifact := Handover(invoice.archive);
      if artifact.None? {
        return Err(NothingSealed);
      }
      var key := Key(i, artifact.value.hash);
      if c :| c in db.connections && db.connections[c].active && db.connections[c].client == invoice.client {
        if r :| r in db.rows && db.rows[r].key == key {
          answer := Ok(EnqueueResult(r, key, true));
        } else {
          var r := FreshId(db.rows.Keys, 0);
          var state := if invoice.state == VALIDATED || invoice.state == DRAFT then QUEUED else invoice.state;
          db := db.(rows := db.rows[r := Row(i, c, key, PENDING, 1, None, now, None, None)],
                    invoices := db.invoices[i := db.invoices[i].(state := state)]);
          var t := FreshId(db.enqueues.Keys, 0);
          trace := EnqueueTrace(w, trace, t, i, c, r, now, db);
          answer := Ok(EnqueueResult(r, key, false));
        }
      } else {
        answer := Err(NoActiveConnection);
      }
    }

    /** The candidates of one pass: issued, VALIDATED, without a row, and connected; oldest first. */
    method Candidates(limit: nat) returns (batch: seq<InvoiceId>)
      requires Valid()
      ensures IsBatch(db, limit, batch)
    {
      var remaining := set i | && i in db.invoices
                               && db.invoices[i].direction == Issued
                               && db.invoices[i].state == VALIDATED
                               && (forall r :: r in db.rows ==> db.rows[r].invoice != i)
                               && (exists c :: && c in db.connections
                                               && db.connections[c].active
                                               && db.connections[c].client == db.invoices[i].client);
      batch := [];
      RemainingIsBacklog(db, remaining);
      hide Picked, IsBatch, Backlog, CreatedAt;
      NonePicked(db);
      while |batch| < limit && remaining != {}
        invariant |batch| <= limit && Picked(db, batch, remaining)
        decreases limit - |batch|
      {
        ghost var _ := OldestExists(db, remaining);
        var i :| i in remaining && forall j :: j in remaining ==> CreatedAt(db, i) <= CreatedAt(db, j);
        PickedOneMore(db, batch, remaining, i);
        batch := batch + [i];
        remaining := remaining - {i};
      }
      PickedIsBatch(db, limit, batch, remaining);
    }

    method EnqueuePending(limit: nat, now: Time) returns (queued: nat)
      requires Valid()
      modifies this
      ensures Valid()
      ensures queued == Min(limit, |Backlog(old(db))|)
      ensures Swept(old(db), db, limit)
    {
      hide Exec, Backlog, Refusal, KeyTaken, KeyOf, Enqueues, IsBatch, Members;
      ghost var w := db;
      var batch := Candidates(limit);
      BatchIsDistinct(w, limit, batch);
      NoMembers(batch);
      queued := 0;
      var k := 0;
      while k < |batch|
        invariant Valid() && 0 <= k <= |batch| && queued == k
        invariant Backlog(db) == Backlog(w) - Members(batch[..k])
      {
        ghost var before := db;
        BatchMembers(batch, k);
        WaitingIsAccepted(before, trace, batch[k]);
        var answer := Enqueue(batch[k], now);
        if answer.Ok? && !answer.value.alreadyQueued {
          queued := queued + 1;
        }
        QueuedLeavesBacklog(before, batch[k], now, answer, db);
        k := k + 1;
      }
      assert batch[..k] == batch;
    }

    /** Stamps up to `limit` due rows with a lease and starts an attempt on each. */
    method Claim(worker: WorkerId, limit: nat, now: Time) returns (rows: seq<RowId>, tasks: seq<TaskId>)
      requires Valid()
      modifies this
      ensures Valid()
      ensures Claimed(old(db), db, worker, now, rows, tasks)
      ensures OldestDueFirst(old(db), now, limit, rows)
      ensures forall r :: r in rows ==>
                && r in old(db).rows && old(db).rows[r].state == PENDING && old(db).rows[r].nextAttemptAt <= now
                && (old(db).rows[r].claimedAt.None? || now - old(db).rows[r].claimedAt.value > 300000)
    {
      hide Exec, Try, Claimed, OldestDueFirst, DueRows, NextAt, CanClaim, AfterClaim;
      ghost var w := db;
      var due := set r | r in db.rows && Due(db.rows[r], now);
      rows, tasks := [], [];
      ClaimStarts(w, worker, now, due);
      while |rows| < limit && due != {}
        invariant Valid() && Claimed(w, db, worker, now, rows, tasks)
        invariant |rows| <= limit && |rows| + |due| == |DueRows(w, now)|
        invariant forall r :: r in DueRows(w, now) <==> r in due || r in rows
        invariant forall r :: r in rows ==> r !in due
        invariant forall j, k :: 0 <= j < k < |rows| ==> NextAt(w, rows[j]) <= NextAt(w, rows[k])
        invariant forall r, q :: r in rows && q in due ==> NextAt(w, r) <= NextAt(w, q)
        decreases limit - |rows|
      {
        ghost var u := db;
        ghost var _ := EarliestExists(w, due);
        ClaimedNextAt(w, db, worker, now, rows, tasks);
        var r :| r in due && forall q :: q in due ==> NextAt(db, r) <= NextAt(db, q);
        var t := FreshId(db.attempts.Keys, 0);
        DueIsRow(w, u, worker, now, rows, tasks, r);
        var row := Stamped(db.rows[r], worker, now);
        db := db.(rows := db.rows[r := row], attempts := db.attempts[t := Pdp.Attempt.Attempt(r, row, None, Waiting)]);
        ClaimGrows(w, u, db, worker, now, rows, tasks, r, t);
        TracedClaim(u, trace, t, r, worker, now);
        trace := trace + [Step.Claim(t, r, worker, now)];
        rows, tasks, due := rows + [r], tasks + [t], due - {r};
      }
      OldestInColumns(w, now, limit, rows);
    }

    /** One attempt of a claimed row, run to its end: sent, rescheduled or parked. */
    method Attempt(t: TaskId, answer: Answer, now: Time, jitter: nat) returns (outcome: AttemptOutcome)
      requires Valid() && IsClaimed(db, t)
      requires Answers(db, t, answer) && IsJitter(jitter, db.attempts[t].snapshot.attempt)
      modifies this
      ensures Valid()
      ensures Ready(old(db), t) && db == Attempted(old(db), t, answer, now, jitter)
      ensures outcome == OutcomeOf(old(db).attempts[t].snapshot.attempt, answer)
    {
      ghost var w, steps := db, AttemptSteps(t, answer, now, jitter);
      assert Reachable(db);
      ClaimedIsReady(db, t);
      AttemptRuns(db, trace, t, answer, now, jitter);
      hide *;
      if answer.Delivered? {
        RecordSent(t, answer, now, jitter);
        outcome := SentOut;
      } else {
        outcome := RecordFailure(t, answer, now, jitter);
      }
      trace := trace + steps;
    }

    /** The accepting call and its transaction: row, history and invoice move together. */
    method RecordSent(t: TaskId, answer: Answer, now: Time, jitter: nat)
      requires Ready(db, t) && answer.Delivered?
      modifies this`db
      ensures db == Attempted(old(db), t, answer, now, jitter)
      ensures OutcomeOf(old(db).attempts[t].snapshot.attempt, answer) == SentOut
    {
      AttemptedSent(db, t, answer, now, jitter);
      hide Attempted, OutcomeOf, Advanced;
      var a := db.attempts[t];
      var row, i := db.rows[a.row], a.snapshot.invoice;
      var d := DocumentId(db.connections[row.connection].provider, row.key);
      var documents := if d in db.documents then db.documents else db.documents[d := answer.receipt];
      var sent := row.(state := SENT, externalId := Some(documents[d].externalId), claimedAt := None, claimedBy := None);
      var state := Advanced(db.invoices[i].state, DEPOSEE);
      db := db.(documents := documents, attempts := db.attempts - {t}, rows := db.rows[a.row := sent],
                history := db.history + {Status(i, DEPOSEE, documents[d].acceptedAt)},
                invoices := db.invoices[i := db.invoices[i].(state := state)]);
    }

    /** The failing call and its transaction: back off or park, and release the claim either way. */
    method RecordFailure(t: TaskId, answer: Answer, now: Time, jitter: nat) returns (outcome: AttemptOutcome)
      requires Ready(db, t) && !answer.Delivered?
      modifies this`db
      ensures db == Attempted(old(db), t, answer, now, jitter)
      ensures outcome == OutcomeOf(old(db).attempts[t].snapshot.attempt, answer)
    {
      var a := db.attempts[t];
      var row, snapshot := db.rows[a.row], a.snapshot;
      var d := DocumentId(db.connections[row.connection].provider, row.key);
      var documents := if answer.Lost? && d !in db.documents then db.documents[d := answer.receipt] else db.documents;
      var park := answer.Untransmittable? || snapshot.attempt + 1 > MAX_ATTEMPTS;
      AttemptedFailed(db, t, answer, now, jitter, park);
      hide Attempted, OutcomeOf, DelaySeconds;
      var next := if park then snapshot.nextAttemptAt else now + (DelaySeconds(snapshot.attempt) + jitter) * 1000;
      var failed := row.(state := if park then RowState.FAILED else PENDING, attempt := snapshot.attempt + 1,
                         nextAttemptAt := next, claimedAt := None, claimedBy := None);
      var code := if park then TRANSMISSION_ABANDONNEE else TRANSMISSION_ECHOUEE;
      db := db.(documents := documents, attempts := db.attempts - {t}, rows := db.rows[a.row := failed],
                history := db.history + {Status(snapshot.invoice, code, now)});
      outcome := if park then Parked else WillRetry;
    }

    /** Claims one batch and attempts every row of it; what the report says is what happened to the rows. */
    method Drain(worker: WorkerId, limit: nat, now: Time, replies: seq<Reply>) returns (report: DrainReport)
      requires Valid() && |replies| >= limit && FreshReplies(db, replies)
      modifies this
      ensures Valid()
      ensures exists rows :: OldestDueFirst(old(db), now, limit, rows) && Drained(old(db), db, rows, replies, report)
      ensures report.claimed == report.sent + report.failed + report.parked
    {
      hide *;
      ghost var w := db;
      DatabaseIsSound(this);
      var rows, tasks := Claim(worker, limit, now);
      ClaimFits(w, db, worker, now, rows, tasks, limit);
      DrainStarts(w, db, worker, now, rows, tasks, replies);
      var sent, failed, parked, k := 0, 0, 0, 0;
      ghost var outcomes: seq<AttemptOutcome> := [];
      while k < |rows|
        invariant Valid() && k <= |rows| == |tasks| <= |replies|
        invariant Draining(w, db, rows, tasks, replies, k)
        invariant DrainedSoFar(w, rows, replies, k, outcomes)
        invariant sent == multiset(outcomes)[SentOut] && failed == multiset(outcomes)[WillRetry]
        invariant parked == multiset(outcomes)[Parked]
      {
        ghost var v := db;
        NextReplyIsFresh(w, db, rows, tasks, replies, k);
        JitterIsAllowed(w, replies, k, db, tasks[k]);
        var outcome := Attempt(tasks[k], replies[k].answer, replies[k].now, replies[k].jitter);
        DrainAdvances(w, v, rows, tasks, replies, k, db);
        OutcomesGrow(w, rows, replies, k, outcomes, outcome);
        if outcome == SentOut {
          sent := sent + 1;
        } else if outcome == Parked {
          parked := parked + 1;
        } else {
          failed := failed + 1;
        }
        outcomes := outcomes + [outcome];
        k := k + 1;
      }
      report := DrainReport(|rows|, sent, failed, parked);
      DrainEnds(w, db, rows, tasks, replies, outcomes, report);
    }

    /** Puts an unsent row back in the queue under the same key; a sent one is refused. */
    method Retry(r: RowId, now: Time) returns (answer: Result<(), RetryError>)
      requires Valid()
      modifies this
      ensures Valid()
      ensures Retried(old(db), r, now, answer, db)
    {
      if r !in db.rows {
        return Err(UnknownRow);
      }
      var row := db.rows[r];
      if row.state == SENT || row.state == ACKNOWLEDGED {
        return Err(AlreadySent);
      }
      var t := FreshId(db.retries.Keys, 0);
      RetryRuns(db, trace, t, r, now);
      trace := trace + [ReadRow(t, r)] + [Requeue(t, now)];
      db := db.(rows := db.rows[r := row.(state := PENDING, nextAttemptAt := now, attempt := 0, claimedAt := None, claimedBy := None)]);
      answer := Ok(());
    }
  }

  lemma DatabaseIsSound(service: Service)
    requires service.Valid()
    ensures Inv(service.db)
  {
    assert Reachable(service.db);
    ReachableInv(service.db);
  }
}
