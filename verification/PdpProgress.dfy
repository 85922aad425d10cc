/** In every run an issued invoice's state is exactly the furthest point it has reached. */
module PdpProgress {
  import opened Prelude
  import opened Lifecycle
  import opened Pdp
  import opened PdpSafety

  ghost predicate HasRow(w: World, i: InvoiceId) {
    exists r :: r in w.rows && w.rows[r].invoice == i
  }

  ghost function Codes(w: World, i: InvoiceId): set<Code> {
    set s | s in w.history && s.invoice == i :: s.code
  }

  ghost function Start(w: World, i: InvoiceId): InvoiceState {
    if HasRow(w, i) then QUEUED else VALIDATED
  }

  ghost predicate StateOk(w: World, i: InvoiceId)
    requires i in w.invoices
  {
    w.invoices[i].direction == Issued ==> IsFurthest(Start(w, i), Codes(w, i), w.invoices[i].state)
  }

  /** No status that moves an invoice exists before its row does, and a stale read is only ever stale by a row. */
  ghost predicate OrderOk(w: World) {
    && (forall s :: s in w.history ==> s.invoice in w.invoices && (Implied(s.code).Some? ==> HasRow(w, s.invoice)))
    && (forall t :: t in w.enqueues ==> w.enqueues[t].seen == VALIDATED || HasRow(w, w.enqueues[t].invoice))
  }

  ghost predicate ProgressInv(w: World) {
    Inv(w) && OrderOk(w) && forall i :: i in w.invoices ==> StateOk(w, i)
  }

  lemma HasRowSurvives(w: World, v: World, i: InvoiceId)
    requires Extends(w, v) && HasRow(w, i)
    ensures HasRow(v, i)
  {
    var r :| r in w.rows && w.rows[r].invoice == i;
    assert r in v.rows;
  }

  lemma SameRowsSameStart(w: World, v: World, i: InvoiceId)
    requires Extends(w, v) && v.rows.Keys == w.rows.Keys
    ensures HasRow(v, i) <==> HasRow(w, i)
  {
    if HasRow(w, i) {
      HasRowSurvives(w, v, i);
    }
  }

  /** Steps that write neither history, nor an invoice's state, nor a new row. */
  lemma QuietKeepsProgress(w: World, v: World)
    requires ProgressInv(w) && Extends(w, v) && Inv(v)
    requires v.rows.Keys == w.rows.Keys && v.history == w.history
    requires forall i :: i in v.invoices ==>
               if i in w.invoices then v.invoices[i].state == w.invoices[i].state
               else v.invoices[i].direction == Received || v.invoices[i].state == VALIDATED
    requires forall t :: t in v.enqueues ==>
               v.enqueues[t].seen == VALIDATED || HasRow(v, v.enqueues[t].invoice)
    ensures ProgressInv(v)
  {
    hide Inv, IsFurthest;
    forall i | i in v.invoices ensures StateOk(v, i) {
      SameRowsSameStart(w, v, i);
      assert Codes(v, i) == Codes(w, i);
      if i in w.invoices {
        assert StateOk(w, i);
      } else {
        NothingYet(w, i);
      }
    }
    forall s | s in v.history ensures s.invoice in v.invoices && (Implied(s.code).Some? ==> HasRow(v, s.invoice)) {
      SameRowsSameStart(w, v, s.invoice);
    }
  }

  lemma NothingYet(w: World, i: InvoiceId)
    requires ProgressInv(w) && i !in w.invoices
    ensures Codes(w, i) == {} && !HasRow(w, i)
    ensures IsFurthest(VALIDATED, {}, VALIDATED)
  {
    forall r | r in w.rows ensures w.rows[r].invoice != i {
      RowIsOk(w, r);
    }
  }

  /** `v` is `w` with status `s` filed and the invoice it is about advanced. */
  ghost predicate Files(w: World, v: World, s: Status) {
    && v.rows.Keys == w.rows.Keys
    && v.enqueues == w.enqueues
    && v.history == w.history + {s}
    && s.invoice in w.invoices
    && v.invoices == w.invoices[s.invoice := w.invoices[s.invoice].(
                                  state := Advanced(w.invoices[s.invoice].state, s.code))]
  }

  /** A new status on an invoice that has its row. */
  lemma StatusKeepsProgress(w: World, v: World, s: Status)
    requires ProgressInv(w) && Extends(w, v) && Inv(v)
    requires Files(w, v, s) && HasRow(w, s.invoice)
    ensures ProgressInv(v)
  {
    hide Inv, IsFurthest, Advanced, Implied;
    forall i | i in v.invoices ensures StateOk(v, i) {
      SameRowsSameStart(w, v, i);
      assert StateOk(w, i);
      if i == s.invoice {
        assert Codes(v, i) == Codes(w, i) + {s.code};
        if w.invoices[i].direction == Issued {
          AdvancedIsFurthest(Start(w, i), Codes(w, i), w.invoices[i].state, s.code);
        }
      } else {
        assert Codes(v, i) == Codes(w, i);
      }
    }
    forall x | x in v.history ensures x.invoice in v.invoices && (Implied(x.code).Some? ==> HasRow(v, x.invoice)) {
      SameRowsSameStart(w, v, x.invoice);
    }
    forall t | t in v.enqueues ensures v.enqueues[t].seen == VALIDATED || HasRow(v, v.enqueues[t].invoice) {
      SameRowsSameStart(w, v, v.enqueues[t].invoice);
    }
  }

  /** Why the stale read in `enqueue` is harmless: anything it missed implies a row, and then the insert fails. */
  lemma InsertFindsValidated(w: World, t: TaskId, r: RowId)
    requires ProgressInv(w) && CanInsert(w, t, r)
    ensures var i := w.enqueues[t].invoice;
            && !HasRow(w, i)
            && w.enqueues[t].seen == VALIDATED
            && w.invoices[i].state == VALIDATED
  {
    var e := w.enqueues[t];
    EnqueueIsOk(w, t);
    forall q | q in w.rows ensures w.rows[q].invoice != e.invoice {
      RowIsOk(w, q);
    }
    NoRowMeansValidated(w, e.invoice);
  }

  lemma NoRowMeansValidated(w: World, i: InvoiceId)
    requires ProgressInv(w) && i in w.invoices && w.invoices[i].direction == Issued && !HasRow(w, i)
    ensures w.invoices[i].state == VALIDATED
  {
    hide Inv;
    assert StateOk(w, i);
    forall c | c in Codes(w, i) ensures Implied(c).None? {
      var s :| s in w.history && s.invoice == i && s.code == c;
    }
  }

  lemma InsertKeepsProgress(w: World, t: TaskId, r: RowId, now: Time)
    requires ProgressInv(w) && CanInsert(w, t, r)
    ensures ProgressInv(AfterInsert(w, t, r, now))
  {
    var v := AfterInsert(w, t, r, now);
    var i := w.enqueues[t].invoice;
    InsertKeepsInv(w, t, r, now);
    InsertFindsValidated(w, t, r);
    hide Inv, KeyTaken;
    assert r in v.rows && v.rows[r].invoice == i;
    forall j | j in v.invoices ensures StateOk(v, j) {
      assert StateOk(w, j);
      assert Codes(v, j) == Codes(w, j);
      if j != i {
        OtherRows(w, v, r, j);
      }
    }
    forall s | s in v.history ensures s.invoice in v.invoices && (Implied(s.code).Some? ==> HasRow(v, s.invoice)) {
      if HasRow(w, s.invoice) {
        HasRowSurvives(w, v, s.invoice);
      }
    }
    forall u | u in v.enqueues ensures v.enqueues[u].seen == VALIDATED || HasRow(v, v.enqueues[u].invoice) {
      if HasRow(w, w.enqueues[u].invoice) {
        HasRowSurvives(w, v, w.enqueues[u].invoice);
      }
    }
  }

  lemma OtherRows(w: World, v: World, r: RowId, j: InvoiceId)
    requires r in v.rows && r !in w.rows && v.rows == w.rows[r := v.rows[r]] && v.rows[r].invoice != j
    ensures HasRow(v, j) <==> HasRow(w, j)
  {
    if HasRow(w, j) {
      var q :| q in w.rows && w.rows[q].invoice == j;
      assert q in v.rows && v.rows[q].invoice == j;
    }
    if HasRow(v, j) {
      var q :| q in v.rows && v.rows[q].invoice == j;
      assert q in w.rows && w.rows[q].invoice == j;
    }
  }

  lemma ReadInvoiceKeepsProgress(w: World, t: TaskId, i: InvoiceId)
    requires ProgressInv(w) && CanReadInvoice(w, t, i)
    ensures ProgressInv(AfterReadInvoice(w, t, i))
  {
    hide Inv, AfterReadInvoice, IsFurthest;
    var v := AfterReadInvoice(w, t, i);
    ReadInvoiceKeepsInv(w, t, i);
    ReadInvoiceFacts(w, t, i);
    if !HasRow(w, i) {
      NoRowMeansValidated(w, i);
    }
    forall u | u in v.enqueues ensures v.enqueues[u].seen == VALIDATED || HasRow(v, v.enqueues[u].invoice) {
      SameRowsSameStart(w, v, v.enqueues[u].invoice);
    }
    hide ProgressInv;
    QuietKeepsProgress(w, v);
  }

  lemma ReadInvoiceFacts(w: World, t: TaskId, i: InvoiceId)
    requires CanReadInvoice(w, t, i)
    ensures var v := AfterReadInvoice(w, t, i);
            && i in w.invoices && w.invoices[i].direction == Issued
            && v.rows == w.rows && v.history == w.history && v.invoices == w.invoices
            && forall u :: u in v.enqueues ==>
                 if u == t then v.enqueues[u].invoice == i && v.enqueues[u].seen == w.invoices[i].state
                 else u in w.enqueues && v.enqueues[u] == w.enqueues[u]
  {}

  lemma RecordSentFiles(w: World, t: TaskId, heard: bool)
    requires CanRecordSent(w, t)
    ensures var a := w.attempts[t];
            Files(w, AfterRecordSent(w, t, heard), Status(a.snapshot.invoice, DEPOSEE, a.outcome.receipt.acceptedAt))
  {}

  lemma RecordFailureFiles(w: World, t: TaskId, jitter: nat)
    requires CanRecordFailure(w, t, jitter) && w.attempts[t].snapshot.invoice in w.invoices
    ensures var a := w.attempts[t];
            exists code :: Files(w, AfterRecordFailure(w, t, jitter), Status(a.snapshot.invoice, code, a.startedAt.value))
  {
    var a := w.attempts[t];
    var row := FailedRow(w.rows[a.row], a.snapshot, a.outcome.permanent, a.startedAt.value, jitter);
    var code := if row.state == RowState.FAILED then TRANSMISSION_ABANDONNEE else TRANSMISSION_ECHOUEE;
    assert Files(w, AfterRecordFailure(w, t, jitter), Status(a.snapshot.invoice, code, a.startedAt.value));
  }

  lemma NewStatusFiles(w: World, t: TaskId)
    requires CanApply(w, t)
    ensures Files(w, AfterNewStatus(w, t), ReportedStatus(w, t))
  {}

  lemma AttemptHasRow(w: World, t: TaskId)
    requires Inv(w) && t in w.attempts
    ensures w.attempts[t].snapshot.invoice in w.invoices && HasRow(w, w.attempts[t].snapshot.invoice)
  {
    AttemptIsOk(w, t);
  }

  lemma RecordSentKeepsProgress(w: World, t: TaskId, heard: bool)
    requires ProgressInv(w) && CanRecordSent(w, t)
    ensures ProgressInv(AfterRecordSent(w, t, heard))
  {
    RecordSentKeepsInv(w, t, heard);
    AttemptHasRow(w, t);
    RecordSentFiles(w, t, heard);
    hide *;
    StatusKeepsProgress(w, AfterRecordSent(w, t, heard),
                        Status(w.attempts[t].snapshot.invoice, DEPOSEE, w.attempts[t].outcome.receipt.acceptedAt));
  }

  lemma RecordFailureKeepsProgress(w: World, t: TaskId, jitter: nat)
    requires ProgressInv(w) && CanRecordFailure(w, t, jitter)
    ensures ProgressInv(AfterRecordFailure(w, t, jitter))
  {
    var v, a := AfterRecordFailure(w, t, jitter), w.attempts[t];
    RecordFailureKeepsInv(w, t, jitter);
    AttemptHasRow(w, t);
    RecordFailureFiles(w, t, jitter);
    hide *;
    var code :| Files(w, v, Status(a.snapshot.invoice, code, a.startedAt.value));
    StatusKeepsProgress(w, v, Status(a.snapshot.invoice, code, a.startedAt.value));
  }

  lemma MatchHasRow(w: World, t: TaskId)
    requires Inv(w) && CanApply(w, t)
    ensures HasRow(w, ReportedStatus(w, t).invoice)
  {
    PollIsOk(w, t);
  }

  lemma ApplyKeepsProgress(w: World, t: TaskId)
    requires ProgressInv(w) && CanApply(w, t)
    ensures ProgressInv(AfterApply(w, t))
  {
    var v := AfterApply(w, t);
    ApplyKeepsInv(w, t);
    MatchHasRow(w, t);
    if ReportedStatus(w, t) in w.history {
      hide Inv, StateOk, Extends, HasRow;
      EnqueuesKept(w, v);
      QuietKeepsProgress(w, v);
    } else {
      NewStatusFiles(w, t);
      assert v == AfterNewStatus(w, t);
      hide *;
      StatusKeepsProgress(w, v, ReportedStatus(w, t));
    }
  }

  lemma EnqueuesKept(w: World, v: World)
    requires OrderOk(w) && Extends(w, v) && v.rows.Keys == w.rows.Keys
    requires forall t :: t in v.enqueues ==>
               t in w.enqueues && v.enqueues[t].seen == w.enqueues[t].seen && v.enqueues[t].invoice == w.enqueues[t].invoice
    ensures forall t :: t in v.enqueues ==> v.enqueues[t].seen == VALIDATED || HasRow(v, v.enqueues[t].invoice)
  {
    forall t | t in v.enqueues ensures v.enqueues[t].seen == VALIDATED || HasRow(v, v.enqueues[t].invoice) {
      SameRowsSameStart(w, v, v.enqueues[t].invoice);
    }
  }

  predicate TouchesState(step: Step) {
    step.ReadInvoice? || step.Insert? || step.RecordSent? || step.RecordFailure? || step.ApplyStatus?
  }

  lemma OtherStepKeepsProgress(w: World, step: Step)
    requires ProgressInv(w) && Enabled(w, step) && !TouchesState(step)
    ensures ProgressInv(Next(w, step))
  {
    var v := Next(w, step);
    StepKeepsInv(w, step);
    QuietFacts(w, step);
    hide Inv, StateOk, Try, Extends, OrderOk;
    EnqueuesKept(w, v);
    QuietKeepsProgress(w, v);
  }

  ghost predicate Quiet(w: World, v: World) {
    && v.rows.Keys == w.rows.Keys
    && v.history == w.history
    && (forall i :: i in v.invoices ==>
          if i in w.invoices then v.invoices[i].state == w.invoices[i].state
          else v.invoices[i].direction == Received || (v.invoices[i].state == VALIDATED && KeyOf(v, i).Some?))
    && (forall t :: t in v.enqueues ==>
          && t in w.enqueues
          && v.enqueues[t].seen == w.enqueues[t].seen
          && v.enqueues[t].invoice == w.enqueues[t].invoice)
  }

  lemma QuietFacts(w: World, step: Step)
    requires Enabled(w, step) && !TouchesState(step)
    ensures Quiet(w, Next(w, step))
  {
    match step
    case Claim(t, r, worker, now) => assert Quiet(w, AfterClaim(w, t, r, worker, now));
    case Requeue(t, now) => assert Quiet(w, AfterRequeue(w, t, now));
    case Issue(i, client, createdAt, pdf, xml) =>
      var v := AfterIssue(w, i, client, createdAt, pdf, xml);
      assert Find(v.invoices[i].archive, FacturxPdf) == Some(Artifact(FacturxPdf, pdf));
      assert Quiet(w, v);
    case Receive(_, _, _, _) => assert Quiet(w, Next(w, step));
    case ReadConnection(t, c) => assert Quiet(w, AfterReadConnection(w, t, c));
    case Drop(t) => assert Quiet(w, AfterDrop(w, t));
    case MatchStatus(t, found) => QuietMatch(w, t, found);
    case _ => QuietRest(w, step);
  }

  lemma QuietMatch(w: World, t: TaskId, found: Option<RowId>)
    requires CanMatch(w, t, found)
    ensures Quiet(w, AfterMatch(w, t, found))
  {}

  lemma QuietRest(w: World, step: Step)
    requires Enabled(w, step)
    requires || step.Begin? || step.Send? || step.Fail? || step.ReadRow? || step.StartPoll? || step.Fetch?
             || step.CommitCursor? || step.Publish? || step.SaveConnection?
    ensures Quiet(w, Next(w, step))
  {
    hide CanSaveConnection, CanBegin, CanSend, CanFail, CanReadRow, CanStartPoll, CanFetch, CanCommit;
    var v := Next(w, step);
    assert v.rows == w.rows && v.invoices == w.invoices && v.history == w.history && v.enqueues == w.enqueues;
  }

  lemma StepKeepsProgress(w: World, step: Step)
    requires ProgressInv(w) && Enabled(w, step)
    ensures ProgressInv(Next(w, step))
  {
    hide ProgressInv;
    match step
    case ReadInvoice(t, i) => ReadInvoiceKeepsProgress(w, t, i);
    case Insert(t, r, now) => InsertKeepsProgress(w, t, r, now);
    case RecordSent(t, heard) => RecordSentKeepsProgress(w, t, heard);
    case RecordFailure(t, jitter) => RecordFailureKeepsProgress(w, t, jitter);
    case ApplyStatus(t) => ApplyKeepsProgress(w, t);
    case _ => OtherStepKeepsProgress(w, step);
  }

  lemma {:induction false} ExecKeepsProgress(w: World, steps: seq<Step>)
    requires ProgressInv(w) && Exec(w, steps).Some?
    ensures ProgressInv(Exec(w, steps).value)
  {
    hide ProgressInv, Try;
    if steps != [] {
      var before := steps[..|steps| - 1];
      ExecKeepsProgress(w, before);
      StepKeepsProgress(Exec(w, before).value, steps[|steps| - 1]);
    }
  }

  /** The state an issued invoice shows in any reachable world. */
  lemma StateIsFurthest(w: World, i: InvoiceId)
    requires Reachable(w) && i in w.invoices && w.invoices[i].direction == Issued
    ensures IsFurthest(if HasRow(w, i) then QUEUED else VALIDATED, Codes(w, i), w.invoices[i].state)
  {
    var steps :| Exec(INITIAL, steps) == Some(w);
    ExecKeepsProgress(INITIAL, steps);
    assert StateOk(w, i);
  }

  /** Two runs that recorded the same codes, in whatever order and interleaving, show the same state. */
  lemma SameHistorySameState(w: World, v: World, i: InvoiceId)
    requires Reachable(w) && i in w.invoices && w.invoices[i].direction == Issued
    requires Reachable(v) && i in v.invoices && v.invoices[i].direction == Issued
    requires Codes(w, i) == Codes(v, i) && (HasRow(w, i) <==> HasRow(v, i))
    ensures w.invoices[i].state == v.invoices[i].state
  {
    StateIsFurthest(w, i);
    StateIsFurthest(v, i);
    FurthestIsUnique(Start(w, i), Codes(w, i), w.invoices[i].state, v.invoices[i].state);
  }

  /** No later step of any run moves an issued invoice backwards. */
  lemma StateNeverRegresses(first: seq<Step>, second: seq<Step>, i: InvoiceId)
    requires Exec(INITIAL, first + second).Some? && Exec(INITIAL, first).Some?
    requires i in Exec(INITIAL, first).value.invoices
    requires Exec(INITIAL, first).value.invoices[i].direction == Issued
    ensures i in Exec(INITIAL, first + second).value.invoices
    ensures Rank(Exec(INITIAL, first).value.invoices[i].state)
         <= Rank(Exec(INITIAL, first + second).value.invoices[i].state)
  {
    var u, v := Exec(INITIAL, first).value, Exec(INITIAL, first + second).value;
    ExecSplits(INITIAL, first, second);
    ExecKeepsInv(INITIAL, first);
    RunExtends(u, second);
    StateIsFurthest(u, i);
    StateIsFurthest(v, i);
    if HasRow(u, i) {
      HasRowSurvives(u, v, i);
    }
    assert Codes(u, i) <= Codes(v, i);
  }
}
