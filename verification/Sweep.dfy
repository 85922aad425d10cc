/** The outbox half: an issued invoice is never lost between issuance and the queue. */
module Sweep {
  import opened Prelude
  import opened Lifecycle
  import opened Pdp
  import opened PdpSafety
  import opened PdpProgress

  ghost predicate HasActiveConnection(w: World, client: ClientId) {
    exists c :: c in w.connections && w.connections[c].active && w.connections[c].client == client
  }

  // ---------------------------------------------------------------------- nothing is lost

  ghost predicate Sealed(w: World) {
    forall i :: i in w.invoices && w.invoices[i].direction == Issued ==> KeyOf(w, i).Some?
  }

  lemma StepKeepsSealed(w: World, step: Step)
    requires Inv(w) && Sealed(w) && Enabled(w, step)
    ensures Sealed(Next(w, step))
  {
    var v := Next(w, step);
    StepKeepsInv(w, step);
    hide Inv;
    IssuedBefore(w, step);
    hide Try;
    forall i | i in v.invoices && v.invoices[i].direction == Issued ensures KeyOf(v, i).Some? {
      if i in w.invoices {
        assert SameInvoice(w.invoices[i], v.invoices[i]);
      }
    }
  }

  lemma IssuedBefore(w: World, step: Step)
    requires Enabled(w, step)
    ensures forall i :: i in Next(w, step).invoices && Next(w, step).invoices[i].direction == Issued ==>
              i in w.invoices || KeyOf(Next(w, step), i).Some?
  {
    if TouchesState(step) {
      SameInvoices(w, step);
    } else {
      QuietFacts(w, step);
      hide Try;
    }
  }

  lemma SameInvoices(w: World, step: Step)
    requires Enabled(w, step) && TouchesState(step)
    ensures Next(w, step).invoices.Keys == w.invoices.Keys
  {
    match step
    case ReadInvoice(_, _) =>
    case Insert(_, _, _) =>
    case RecordSent(_, _) =>
    case RecordFailure(_, _) =>
    case ApplyStatus(t) => AppliedInvoices(w, t);
  }

  lemma AppliedInvoices(w: World, t: TaskId)
    requires CanApply(w, t)
    ensures AfterApply(w, t).invoices.Keys == w.invoices.Keys
  {
    hide Advanced, AppliedRow, Advance, Head;
  }

  lemma {:induction false} ExecKeepsSealed(w: World, steps: seq<Step>)
    requires Inv(w) && Sealed(w) && Exec(w, steps).Some?
    ensures Sealed(Exec(w, steps).value)
  {
    hide Inv, Sealed, Try;
    if steps != [] {
      var before := steps[..|steps| - 1];
      ExecKeepsSealed(w, before);
      ExecKeepsInv(w, before);
      StepKeepsSealed(Exec(w, before).value, steps[|steps| - 1]);
    }
  }

  lemma ReachableSealed(w: World)
    requires Reachable(w)
    ensures Sealed(w)
  {
    var steps :| Exec(INITIAL, steps) == Some(w);
    ExecKeepsSealed(INITIAL, steps);
  }

  /** Whatever crashed, an issued invoice is sealed and either waits as VALIDATED or stands in exactly one row. */
  lemma NothingIsLost(w: World, i: InvoiceId)
    requires Reachable(w) && i in w.invoices && w.invoices[i].direction == Issued
    ensures KeyOf(w, i).Some?
    ensures (exists r :: r in w.rows && w.rows[r].invoice == i && forall q :: q in w.rows && w.rows[q].invoice == i ==> q == r)
            || (!HasRow(w, i) && w.invoices[i].state == VALIDATED)
  {
    ReachableSealed(w);
    AtMostOneDocument(w, i);
    if !HasRow(w, i) {
      var steps :| Exec(INITIAL, steps) == Some(w);
      ExecKeepsProgress(INITIAL, steps);
      hide Exec;
      NoRowMeansValidated(w, i);
    }
  }

  // ---------------------------------------------------------------------- the backlog

  ghost predicate Waiting(w: World, i: InvoiceId)
    requires i in w.invoices
  {
    && w.invoices[i].direction == Issued
    && w.invoices[i].state == VALIDATED
    && !HasRow(w, i)
    && HasActiveConnection(w, w.invoices[i].client)
  }

  ghost function Backlog(w: World): set<InvoiceId> {
    set i | i in w.invoices && Waiting(w, i)
  }

  function Min(a: nat, b: nat): nat {
    if a < b then a else b
  }

  ghost function Members(batch: seq<InvoiceId>): set<InvoiceId> {
    set i | i in batch
  }

  function CreatedAt(w: World, i: InvoiceId): Time {
    if i in w.invoices then w.invoices[i].createdAt else 0
  }

  /** The `limit` oldest invoices of the backlog, oldest first. */
  ghost predicate IsBatch(w: World, limit: nat, batch: seq<InvoiceId>) {
    && |batch| == Min(limit, |Backlog(w)|)
    && (forall j, k :: 0 <= j < k < |batch| ==> batch[j] != batch[k])
    && (forall i :: i in batch ==> i in w.invoices && i in Backlog(w))
    && (forall j, k :: 0 <= j < k < |batch| ==> w.invoices[batch[j]].createdAt <= w.invoices[batch[k]].createdAt)
    && (forall i, j :: i in batch && j in Backlog(w) && j !in batch ==> w.invoices[i].createdAt <= w.invoices[j].createdAt)
  }

  /** One pass: exactly the batch has left the backlog. */
  ghost predicate Swept(w: World, v: World, limit: nat) {
    exists batch :: IsBatch(w, limit, batch) && Backlog(v) == Backlog(w) - Members(batch)
  }

  lemma {:induction false} DistinctSize(batch: seq<InvoiceId>)
    requires forall j, k :: 0 <= j < k < |batch| ==> batch[j] != batch[k]
    ensures |Members(batch)| == |batch|
  {
    if batch != [] {
      var front, last := batch[..|batch| - 1], batch[|batch| - 1];
      DistinctSize(front);
      assert batch == front + [last];
      assert last !in front;
      assert Members(batch) == Members(front) + {last};
    }
  }

  lemma SweptSize(w: World, v: World, limit: nat)
    requires Swept(w, v, limit)
    ensures |Backlog(v)| == |Backlog(w)| - Min(limit, |Backlog(w)|)
  {
    var batch :| IsBatch(w, limit, batch) && Backlog(v) == Backlog(w) - Members(batch);
    DistinctSize(batch);
    hide Backlog;
    assert Members(batch) <= Backlog(w);
  }

  /**
   A backlog of n is gone after ceil(n / limit) passes, whatever else happens in between as long as
   it does not add to the backlog.
   */
  lemma {:induction false} SweepDrains(passes: seq<(World, World)>, limit: nat)
    requires limit > 0 && passes != []
    requires forall k :: 0 <= k < |passes| ==> Swept(passes[k].0, passes[k].1, limit)
    requires forall k :: 0 <= k < |passes| - 1 ==> Backlog(passes[k + 1].0) <= Backlog(passes[k].1)
    requires |Backlog(passes[0].0)| <= limit * |passes|
    ensures Backlog(passes[|passes| - 1].1) == {}
  {
    hide Swept, Backlog;
    SweptSize(passes[0].0, passes[0].1, limit);
    if |passes| > 1 {
      var rest := passes[1..];
      SmallerIsFewer(Backlog(passes[1].0), Backlog(passes[0].1));
      assert limit * |passes| == limit * |rest| + limit;
      forall k | 0 <= k < |rest| - 1 ensures Backlog(rest[k + 1].0) <= Backlog(rest[k].1) {
        assert rest[k + 1] == passes[k + 1 + 1] && rest[k] == passes[k + 1];
      }
      SweepDrains(rest, limit);
    }
  }

  lemma SmallerIsFewer(a: set<InvoiceId>, b: set<InvoiceId>)
    requires a <= b
    ensures |a| <= |b|
  {
    assert b == a + (b - a);
  }

  /** A new row for `i` takes exactly `i` off the backlog. */
  lemma RowLeavesBacklog(w: World, v: World, i: InvoiceId, r: RowId)
    requires i in w.invoices && r !in w.rows && r in v.rows && v.rows == w.rows[r := v.rows[r]] && v.rows[r].invoice == i
    requires v.connections == w.connections && v.invoices.Keys == w.invoices.Keys
    requires forall j :: j in w.invoices && j != i ==> v.invoices[j] == w.invoices[j]
    ensures Backlog(v) == Backlog(w) - {i}
  {
    assert HasRow(v, i);
    forall j | j in w.invoices && j != i ensures Waiting(v, j) <==> Waiting(w, j) {
      OtherRows(w, v, r, j);
      assert HasActiveConnection(v, w.invoices[j].client) <==> HasActiveConnection(w, w.invoices[j].client);
    }
  }

  lemma OldestExists(w: World, waiting: set<InvoiceId>) returns (oldest: InvoiceId)
    requires waiting != {}
    ensures oldest in waiting && forall j :: j in waiting ==> CreatedAt(w, oldest) <= CreatedAt(w, j)
  {
    oldest :| oldest in waiting;
    if waiting != {oldest} {
      var other := OldestExists(w, waiting - {oldest});
      if CreatedAt(w, other) < CreatedAt(w, oldest) {
        oldest := other;
      }
    }
  }
}
