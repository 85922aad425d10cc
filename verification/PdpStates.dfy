/** What the states of invoices and rows mean, code by code, in every run. */
module PdpStates {
  import opened Prelude
  import opened Lifecycle
  import opened Pdp
  import opened PdpSafety
  import opened PdpProgress
  import opened PdpLease

  /**
   An issued invoice is REJECTED exactly when it was rejected or refused, DELIVERED exactly when not and
   one of the four delivery codes is on record, TRANSMITTED exactly when none of those is and it was
   deposited or taken on, and otherwise QUEUED or VALIDATED by whether it has a row.
   */
  lemma StateIsWhatCodesSay(w: World, i: InvoiceId)
    requires Reachable(w) && i in w.invoices && w.invoices[i].direction == Issued
    ensures var codes, state := Codes(w, i), w.invoices[i].state;
            var rejected := REJETEE in codes || REFUSEE in codes;
            var delivered := || MISE_A_DISPOSITION in codes || RECUE_PAR_LA_PLATEFORME_DESTINATAIRE in codes
                             || APPROUVEE in codes || APPROUVEE_PARTIELLEMENT in codes;
            var transmitted := DEPOSEE in codes || PRISE_EN_CHARGE in codes;
            && (state == REJECTED <==> rejected)
            && (state == DELIVERED <==> !rejected && delivered)
            && (state == TRANSMITTED <==> !rejected && !delivered && transmitted)
            && (state == QUEUED <==> !rejected && !delivered && !transmitted && HasRow(w, i))
            && (state == VALIDATED <==> !rejected && !delivered && !transmitted && !HasRow(w, i))
  {
    StateIsFurthest(w, i);
    FurthestIsStateAfter(if HasRow(w, i) then QUEUED else VALIDATED, Codes(w, i), w.invoices[i].state);
    hide IsFurthest, Reachable, HasRow, Codes;
  }

  // ---------------------------------------------------------------------- acknowledged rows

  ghost predicate Delivering(code: Code) {
    || code == MISE_A_DISPOSITION || code == RECUE_PAR_LA_PLATEFORME_DESTINATAIRE
    || code == APPROUVEE || code == APPROUVEE_PARTIELLEMENT
  }

  ghost predicate OnRecord(w: World, i: InvoiceId, s: Status) {
    s in w.history && s.invoice == i && Delivering(s.code)
  }

  ghost predicate HasDelivery(w: World, i: InvoiceId) {
    exists s :: OnRecord(w, i, s)
  }

  ghost predicate AckOk(w: World) {
    forall r :: r in w.rows && w.rows[r].state == ACKNOWLEDGED ==> HasDelivery(w, w.rows[r].invoice)
  }

  lemma DeliverySurvives(w: World, v: World, i: InvoiceId)
    requires Extends(w, v) && HasDelivery(w, i)
    ensures HasDelivery(v, i)
  {
    var s :| OnRecord(w, i, s);
    assert OnRecord(v, i, s);
  }

  /** Steps after which a row is acknowledged only if it was before. */
  lemma NoNewAckKeeps(w: World, v: World)
    requires AckOk(w) && Extends(w, v)
    requires forall r :: r in v.rows && v.rows[r].state == ACKNOWLEDGED ==> r in w.rows && w.rows[r].state == ACKNOWLEDGED
    ensures AckOk(v)
  {
    hide HasDelivery;
    forall r | r in v.rows && v.rows[r].state == ACKNOWLEDGED ensures HasDelivery(v, v.rows[r].invoice) {
      SameInvoiceOfRow(w, v, r);
      DeliverySurvives(w, v, w.rows[r].invoice);
    }
  }

  lemma SameInvoiceOfRow(w: World, v: World, r: RowId)
    requires Extends(w, v) && r in w.rows
    ensures r in v.rows && v.rows[r].invoice == w.rows[r].invoice
  {}

  lemma WriteAcknowledgesNothing(w: World, step: Step)
    requires Enabled(w, step) && WritesRows(step) && !step.ApplyStatus?
    ensures forall r :: r in Next(w, step).rows && Next(w, step).rows[r].state == ACKNOWLEDGED ==> r in w.rows && w.rows[r].state == ACKNOWLEDGED
  {
    hide KeyTaken, Advanced, Due, DelaySeconds;
  }

  lemma ApplyAcknowledges(w: World, t: TaskId)
    requires Inv(w) && CanApply(w, t) && ReportedStatus(w, t) !in w.history
    ensures var v, m := AfterApply(w, t), w.polls[t].matched.value;
            && m.row in w.rows && w.rows[m.row].invoice == m.invoice
            && v.rows == w.rows[m.row := AppliedRow(w.rows[m.row], m.seen, Head(w.polls[t]).code)]
            && ReportedStatus(w, t) in v.history
            && ReportedStatus(w, t) == Status(m.invoice, Head(w.polls[t]).code, Head(w.polls[t]).occurredAt)
  {
    PollIsOk(w, t);
    hide Inv, AppliedRow, Advanced;
  }

  /** Only the row a new status matched can become acknowledged, and then that status is a delivery. */
  lemma NewStatusKeepsAck(w: World, v: World, m: Match, u: Update)
    requires AckOk(w) && Extends(w, v) && m.row in w.rows && w.rows[m.row].invoice == m.invoice
    requires v.rows == w.rows[m.row := AppliedRow(w.rows[m.row], m.seen, u.code)]
    requires Status(m.invoice, u.code, u.occurredAt) in v.history
    ensures AckOk(v)
  {
    hide HasDelivery, Extends;
    forall r | r in v.rows && v.rows[r].state == ACKNOWLEDGED ensures HasDelivery(v, v.rows[r].invoice) {
      SameInvoiceOfRow(w, v, r);
      if w.rows[r].state == ACKNOWLEDGED {
        DeliverySurvives(w, v, w.rows[r].invoice);
      } else {
        assert r == m.row && Delivering(u.code);
        OneDelivery(v, w.rows[r].invoice, Status(m.invoice, u.code, u.occurredAt));
      }
    }
  }

  lemma SeenLeavesRows(w: World, t: TaskId)
    requires CanApply(w, t) && ReportedStatus(w, t) in w.history
    ensures AfterApply(w, t).rows == w.rows
  {
    hide AfterNewStatus;
  }

  lemma ApplyKeepsAck(w: World, t: TaskId)
    requires Inv(w) && AckOk(w) && CanApply(w, t)
    ensures AckOk(AfterApply(w, t))
  {
    ApplyKeepsInv(w, t);
    if ReportedStatus(w, t) in w.history {
      SeenLeavesRows(w, t);
      hide *;
      NoNewAckKeeps(w, AfterApply(w, t));
    } else {
      ApplyAcknowledges(w, t);
      hide Inv, AckOk, AfterApply, Extends, AppliedRow, ReportedStatus;
      NewStatusKeepsAck(w, AfterApply(w, t), w.polls[t].matched.value, Head(w.polls[t]));
    }
  }

  lemma OneDelivery(w: World, i: InvoiceId, s: Status)
    requires OnRecord(w, i, s)
    ensures HasDelivery(w, i)
  {}

  lemma StepKeepsAck(w: World, step: Step)
    requires Inv(w) && AckOk(w) && Enabled(w, step)
    ensures AckOk(Next(w, step))
  {
    StepKeepsInv(w, step);
    hide Inv, AckOk, Extends, Try, WritesRows;
    if step.ApplyStatus? {
      TakenApply(w, step.task);
      ApplyKeepsAck(w, step.task);
    } else if WritesRows(step) {
      WriteAcknowledgesNothing(w, step);
      NoNewAckKeeps(w, Next(w, step));
    } else {
      LeavesRows(w, step);
      NoNewAckKeeps(w, Next(w, step));
    }
  }

  lemma TakenApply(w: World, t: TaskId)
    requires Enabled(w, ApplyStatus(t))
    ensures CanApply(w, t) && Next(w, ApplyStatus(t)) == AfterApply(w, t)
  {}

  lemma {:induction false} ExecKeepsAck(w: World, steps: seq<Step>)
    requires Inv(w) && AckOk(w) && Exec(w, steps).Some?
    ensures AckOk(Exec(w, steps).value)
  {
    hide Inv, AckOk, Try;
    if steps != [] {
      var before := steps[..|steps| - 1];
      ExecKeepsAck(w, before);
      ExecKeepsInv(w, before);
      StepKeepsAck(Exec(w, before).value, steps[|steps| - 1]);
    }
  }

  /** Behind every ACKNOWLEDGED row stands a delivery on record, and an invoice delivered or since rejected. */
  lemma AcknowledgedIsDelivered(w: World, r: RowId)
    requires Reachable(w) && r in w.rows && w.rows[r].state == ACKNOWLEDGED
    ensures var i := w.rows[r].invoice;
            && (exists s :: && s in w.history && s.invoice == i
                            && (|| s.code == MISE_A_DISPOSITION || s.code == RECUE_PAR_LA_PLATEFORME_DESTINATAIRE
                                || s.code == APPROUVEE || s.code == APPROUVEE_PARTIELLEMENT))
            && i in w.invoices && (w.invoices[i].state == DELIVERED || w.invoices[i].state == REJECTED)
  {
    ReachableInv(w);
    RowIsOk(w, r);
    var steps :| Exec(INITIAL, steps) == Some(w);
    ExecKeepsAck(INITIAL, steps);
    hide Exec, Inv;
    var i := w.rows[r].invoice;
    var s :| OnRecord(w, i, s);
    assert s.code in Codes(w, i);
    StateIsWhatCodesSay(w, i);
  }
}
