/** What every run of the transmission protocol keeps: at most one document per issued invoice. */
module PdpSafety {
  import opened Prelude
  import opened Pdp

  // ---------------------------------------------------------------------- the invariant

  ghost predicate Evidenced(w: World, r: RowId, x: ExternalId) {
    && HasDocumentId(w, r)
    && DocumentOf(w, r) in w.documents
    && w.documents[DocumentOf(w, r)].externalId == x
  }

  ghost predicate RowOk(w: World, r: RowId)
    requires r in w.rows
  {
    var row := w.rows[r];
    && row.invoice in w.invoices
    && w.invoices[row.invoice].direction == Issued
    && KeyOf(w, row.invoice) == Some(row.key)
    && row.connection in w.connections
    && (row.externalId.Some? ==> Evidenced(w, r, row.externalId.value))
    && (row.state == SENT || row.state == ACKNOWLEDGED ==> row.externalId.Some?)
    && (row.claimedAt.None? <==> row.claimedBy.None?)
  }

  ghost predicate RowsOk(w: World) {
    && (forall r :: r in w.rows ==> RowOk(w, r))
    && (forall r, q :: r in w.rows && q in w.rows && w.rows[r].key == w.rows[q].key ==> r == q)
  }

  ghost predicate Backs(w: World, r: RowId, d: DocumentId) {
    HasDocumentId(w, r) && DocumentOf(w, r) == d
  }

  ghost predicate DocumentsOk(w: World) {
    && (forall d :: d in w.documents ==> exists r :: Backs(w, r, d))
    && (forall d, e :: (d in w.documents && e in w.documents && d.provider == e.provider &&
                        w.documents[d].externalId == w.documents[e].externalId) ==> d == e)
  }

  ghost predicate EnqueueOk(w: World, e: Enqueue) {
    && e.invoice in w.invoices
    && w.invoices[e.invoice].direction == Issued
    && KeyOf(w, e.invoice) == Some(e.key)
    && (e.connection.Some? ==> e.connection.value in w.connections)
  }

  ghost predicate AttemptOk(w: World, a: Attempt) {
    && a.row in w.rows
    && a.snapshot.invoice == w.rows[a.row].invoice
    && (a.outcome.Accepted? ==> Evidenced(w, a.row, a.outcome.receipt.externalId))
  }

  ghost predicate MatchOk(w: World, c: ConnectionId, m: Match, x: ExternalId) {
    && m.row in w.rows
    && m.invoice == w.rows[m.row].invoice
    && w.rows[m.row].connection == c
    && w.rows[m.row].externalId == Some(x)
  }

  ghost predicate PollOk(w: World, p: Poll) {
    && p.connection in w.connections
    && (p.matched.Some? ==>
          && p.pending.Some?
          && p.pending.value != []
          && MatchOk(w, p.connection, p.matched.value, Head(p).externalId))
  }

  ghost predicate TasksOk(w: World) {
    && (forall t :: t in w.enqueues ==> EnqueueOk(w, w.enqueues[t]))
    && (forall t :: t in w.attempts ==> AttemptOk(w, w.attempts[t]))
    && (forall t :: t in w.retries ==> w.retries[t] in w.rows)
    && (forall t :: t in w.polls ==> PollOk(w, w.polls[t]))
  }

  ghost predicate Inv(w: World) {
    RowsOk(w) && DocumentsOk(w) && TasksOk(w)
  }

  // ---------------------------------------------------------------------- what no step takes back

  ghost predicate SameInvoice(a: Invoice, b: Invoice) {
    a.direction == b.direction && a.archive == b.archive && a.client == b.client && a.createdAt == b.createdAt
  }

  ghost predicate SameRow(a: Row, b: Row) {
    && a.invoice == b.invoice
    && a.connection == b.connection
    && a.key == b.key
    && (a.externalId.Some? ==> b.externalId == a.externalId)
  }

  /** Tables only gain rows, identities are fixed, receipts and recorded identifiers are never rewritten. */
  ghost predicate Extends(w: World, v: World) {
    && (forall i :: i in w.invoices ==> i in v.invoices && SameInvoice(w.invoices[i], v.invoices[i]))
    && (forall r :: r in w.rows ==> r in v.rows && SameRow(w.rows[r], v.rows[r]))
    && (forall c :: c in w.connections ==>
          && c in v.connections
          && w.connections[c].client == v.connections[c].client
          && w.connections[c].provider == v.connections[c].provider)
    && (forall d :: d in w.documents ==> d in v.documents && w.documents[d] == v.documents[d])
    && w.history <= v.history
    && w.unmatched <= v.unmatched
    && (forall p :: Stream(w, p) <= Stream(v, p))
  }

  lemma EvidenceSurvives(w: World, v: World, r: RowId, x: ExternalId)
    requires Extends(w, v) && Evidenced(w, r, x)
    ensures Evidenced(v, r, x)
  {
    assert DocumentOf(v, r) == DocumentOf(w, r);
  }

  lemma AttemptSurvives(w: World, v: World, a: Attempt)
    requires Extends(w, v) && AttemptOk(w, a)
    ensures AttemptOk(v, a)
  {
    if a.outcome.Accepted? {
      EvidenceSurvives(w, v, a.row, a.outcome.receipt.externalId);
    }
  }

  lemma RowSurvives(w: World, v: World, r: RowId)
    requires Extends(w, v) && r in w.rows && RowOk(w, r)
    requires v.rows[r].externalId.Some? ==> Evidenced(w, r, v.rows[r].externalId.value)
    requires v.rows[r].state == SENT || v.rows[r].state == ACKNOWLEDGED ==> v.rows[r].externalId.Some?
    requires v.rows[r].claimedAt.None? <==> v.rows[r].claimedBy.None?
    ensures RowOk(v, r)
  {
    if v.rows[r].externalId.Some? {
      EvidenceSurvives(w, v, r, v.rows[r].externalId.value);
    }
  }

  /** Operations in progress stay sound in any later world, whoever made the progress. */
  lemma TasksSurvive(w: World, v: World)
    requires TasksOk(w) && Extends(w, v)
    requires forall t :: t in v.enqueues && !(t in w.enqueues && v.enqueues[t] == w.enqueues[t]) ==> EnqueueOk(v, v.enqueues[t])
    requires forall t :: t in v.attempts && !(t in w.attempts && v.attempts[t] == w.attempts[t]) ==> AttemptOk(v, v.attempts[t])
    requires forall t :: t in v.retries && !(t in w.retries && v.retries[t] == w.retries[t]) ==> v.retries[t] in v.rows
    requires forall t :: t in v.polls && !(t in w.polls && v.polls[t] == w.polls[t]) ==> PollOk(v, v.polls[t])
    ensures TasksOk(v)
  {
    forall t | t in v.enqueues ensures EnqueueOk(v, v.enqueues[t]) {
      assert t in w.enqueues && v.enqueues[t] == w.enqueues[t] ==> EnqueueOk(w, w.enqueues[t]);
    }
    forall t | t in v.attempts ensures AttemptOk(v, v.attempts[t]) {
      if t in w.attempts && v.attempts[t] == w.attempts[t] {
        AttemptSurvives(w, v, w.attempts[t]);
      }
    }
    forall t | t in v.polls ensures PollOk(v, v.polls[t]) {
      assert t in w.polls && v.polls[t] == w.polls[t] ==> PollOk(w, w.polls[t]);
    }
  }

  /** Every row but `touched` is as it was, and a new row's key is new. */
  lemma RowsSurvive(w: World, v: World, touched: set<RowId>)
    requires RowsOk(w) && Extends(w, v)
    requires forall r :: r in v.rows && r !in touched ==> r in w.rows && v.rows[r] == w.rows[r]
    requires forall r :: r in v.rows && r in touched ==> RowOk(v, r)
    requires forall r, q :: r in v.rows && q in v.rows && v.rows[r].key == v.rows[q].key && r !in w.rows ==> r == q
    ensures RowsOk(v)
  {
    forall r | r in v.rows ensures RowOk(v, r) {
      if r !in touched {
        assert RowOk(w, r);
        RowSurvives(w, v, r);
      }
    }
    forall r, q | r in v.rows && q in v.rows && v.rows[r].key == v.rows[q].key ensures r == q {
      if r in w.rows && q in w.rows {
        assert w.rows[r].key == w.rows[q].key;
      }
    }
  }

  lemma DocumentsSurvive(w: World, v: World)
    requires DocumentsOk(w) && Extends(w, v)
    requires forall d :: d in v.documents && d !in w.documents ==> exists r :: Backs(v, r, d)
    requires forall d, e :: (d in v.documents && e in v.documents && d !in w.documents && d.provider == e.provider &&
                             v.documents[d].externalId == v.documents[e].externalId) ==> d == e
    ensures DocumentsOk(v)
  {
    forall d | d in v.documents ensures exists r :: Backs(v, r, d) {
      if d in w.documents {
        var r :| Backs(w, r, d);
        assert Backs(v, r, d);
      }
    }
  }

  /** A step has only what it changed to answer for. */
  lemma Assemble(w: World, v: World, touched: set<RowId>)
    requires Inv(w) && Extends(w, v)
    requires forall r :: r in v.rows && r !in touched ==> r in w.rows && v.rows[r] == w.rows[r]
    requires forall r :: r in v.rows && r in touched ==> RowOk(v, r)
    requires forall r, q :: r in v.rows && q in v.rows && v.rows[r].key == v.rows[q].key && r !in w.rows ==> r == q
    requires forall d :: d in v.documents && d !in w.documents ==> exists r :: Backs(v, r, d)
    requires forall d, e :: (d in v.documents && e in v.documents && d !in w.documents && d.provider == e.provider &&
                             v.documents[d].externalId == v.documents[e].externalId) ==> d == e
    requires forall t :: t in v.enqueues && !(t in w.enqueues && v.enqueues[t] == w.enqueues[t]) ==> EnqueueOk(v, v.enqueues[t])
    requires forall t :: t in v.attempts && !(t in w.attempts && v.attempts[t] == w.attempts[t]) ==> AttemptOk(v, v.attempts[t])
    requires forall t :: t in v.retries && !(t in w.retries && v.retries[t] == w.retries[t]) ==> v.retries[t] in v.rows
    requires forall t :: t in v.polls && !(t in w.polls && v.polls[t] == w.polls[t]) ==> PollOk(v, v.polls[t])
    ensures Inv(v)
  {
    hide RowOk, EnqueueOk, AttemptOk, PollOk, Backs, Extends, RowsOk, DocumentsOk, TasksOk;
    RowsSurvive(w, v, touched);
    DocumentsSurvive(w, v);
    TasksSurvive(w, v);
  }

  lemma RowIsOk(w: World, r: RowId)
    requires Inv(w) && r in w.rows
    ensures RowOk(w, r)
  {}

  lemma EnqueueIsOk(w: World, t: TaskId)
    requires Inv(w) && t in w.enqueues
    ensures EnqueueOk(w, w.enqueues[t])
  {}

  lemma AttemptIsOk(w: World, t: TaskId)
    requires Inv(w) && t in w.attempts
    ensures AttemptOk(w, w.attempts[t]) && RowOk(w, w.attempts[t].row)
  {}

  lemma PollIsOk(w: World, t: TaskId)
    requires Inv(w) && t in w.polls
    ensures PollOk(w, w.polls[t])
    ensures w.polls[t].matched.Some? ==> RowOk(w, w.polls[t].matched.value.row)
  {}

  lemma IssuingKeepsInv(w: World, step: Step)
    requires Inv(w) && Enabled(w, step) && (step.Issue? || step.Receive?)
    ensures Extends(w, Next(w, step)) && Inv(Next(w, step))
  {
    hide Inv;
    Assemble(w, Next(w, step), {});
  }

  lemma SaveConnectionKeepsInv(w: World, c: ConnectionId, client: ClientId, provider: Provider, active: bool)
    requires Inv(w) && CanSaveConnection(w, c, client, provider)
    ensures Extends(w, AfterSaveConnection(w, c, client, provider, active))
    ensures Inv(AfterSaveConnection(w, c, client, provider, active))
  {
    hide Inv;
    Assemble(w, AfterSaveConnection(w, c, client, provider, active), {});
  }

  lemma ReadInvoiceKeepsInv(w: World, t: TaskId, i: InvoiceId)
    requires Inv(w) && CanReadInvoice(w, t, i)
    ensures Extends(w, AfterReadInvoice(w, t, i)) && Inv(AfterReadInvoice(w, t, i))
  {
    hide Inv;
    Assemble(w, AfterReadInvoice(w, t, i), {});
  }

  lemma ReadConnectionKeepsInv(w: World, t: TaskId, c: ConnectionId)
    requires Inv(w) && CanReadConnection(w, t, c)
    ensures Extends(w, AfterReadConnection(w, t, c)) && Inv(AfterReadConnection(w, t, c))
  {
    hide Inv;
    EnqueueIsOk(w, t);
    Assemble(w, AfterReadConnection(w, t, c), {});
  }

  lemma ReadRowKeepsInv(w: World, t: TaskId, r: RowId)
    requires Inv(w) && CanReadRow(w, t, r)
    ensures Extends(w, AfterReadRow(w, t, r)) && Inv(AfterReadRow(w, t, r))
  {
    hide Inv;
    Assemble(w, AfterReadRow(w, t, r), {});
  }

  lemma InsertKeepsInv(w: World, t: TaskId, r: RowId, now: Time)
    requires Inv(w) && CanInsert(w, t, r)
    ensures Extends(w, AfterInsert(w, t, r, now)) && Inv(AfterInsert(w, t, r, now))
  {
    hide Inv;
    var v := AfterInsert(w, t, r, now);
    EnqueueIsOk(w, t);
    assert RowOk(v, r);
    Assemble(w, v, {r});
  }

  lemma ClaimKeepsInv(w: World, t: TaskId, r: RowId, worker: WorkerId, now: Time)
    requires Inv(w) && CanClaim(w, t, r, now)
    ensures Extends(w, AfterClaim(w, t, r, worker, now)) && Inv(AfterClaim(w, t, r, worker, now))
  {
    hide Inv;
    var v := AfterClaim(w, t, r, worker, now);
    RowIsOk(w, r);
    RowSurvives(w, v, r);
    Assemble(w, v, {r});
  }

  lemma BeginKeepsInv(w: World, t: TaskId, now: Time)
    requires Inv(w) && CanBegin(w, t)
    ensures Extends(w, AfterBegin(w, t, now)) && Inv(AfterBegin(w, t, now))
  {
    hide Inv;
    AttemptIsOk(w, t);
    AttemptSurvives(w, AfterBegin(w, t, now), w.attempts[t]);
    Assemble(w, AfterBegin(w, t, now), {});
  }

  lemma FailKeepsInv(w: World, t: TaskId, permanent: bool)
    requires Inv(w) && CanFail(w, t, permanent)
    ensures Extends(w, AfterFail(w, t, permanent)) && Inv(AfterFail(w, t, permanent))
  {
    hide Inv;
    AttemptIsOk(w, t);
    Assemble(w, AfterFail(w, t, permanent), {});
  }

  lemma SendKeepsInv(w: World, t: TaskId, receipt: Receipt, delivered: bool)
    requires Inv(w) && CanSend(w, t, receipt)
    ensures Extends(w, AfterSend(w, t, receipt, delivered)) && Inv(AfterSend(w, t, receipt, delivered))
  {
    hide Inv;
    var v := AfterSend(w, t, receipt, delivered);
    var r := w.attempts[t].row;
    AttemptIsOk(w, t);
    assert Backs(v, r, DocumentOf(w, r));
    Assemble(w, v, {});
  }

  lemma RecordSentKeepsInv(w: World, t: TaskId, heard: bool)
    requires Inv(w) && CanRecordSent(w, t)
    ensures Extends(w, AfterRecordSent(w, t, heard)) && Inv(AfterRecordSent(w, t, heard))
  {
    hide Inv, KeyOf;
    var v := AfterRecordSent(w, t, heard);
    AttemptIsOk(w, t);
    RowSurvives(w, v, w.attempts[t].row);
    Assemble(w, v, {w.attempts[t].row});
  }

  lemma RecordFailureKeepsInv(w: World, t: TaskId, jitter: nat)
    requires Inv(w) && CanRecordFailure(w, t, jitter)
    ensures Extends(w, AfterRecordFailure(w, t, jitter)) && Inv(AfterRecordFailure(w, t, jitter))
  {
    hide Inv;
    var v := AfterRecordFailure(w, t, jitter);
    AttemptIsOk(w, t);
    RowSurvives(w, v, w.attempts[t].row);
    Assemble(w, v, {w.attempts[t].row});
  }

  lemma RequeueKeepsInv(w: World, t: TaskId, now: Time)
    requires Inv(w) && CanRequeue(w, t)
    ensures Extends(w, AfterRequeue(w, t, now)) && Inv(AfterRequeue(w, t, now))
  {
    hide Inv;
    var v := AfterRequeue(w, t, now);
    RowIsOk(w, w.retries[t]);
    RowSurvives(w, v, w.retries[t]);
    Assemble(w, v, {w.retries[t]});
  }

  lemma StartPollKeepsInv(w: World, t: TaskId, c: ConnectionId, now: Time)
    requires Inv(w) && CanStartPoll(w, t, c)
    ensures Extends(w, AfterStartPoll(w, t, c, now)) && Inv(AfterStartPoll(w, t, c, now))
  {
    hide Inv;
    Assemble(w, AfterStartPoll(w, t, c, now), {});
  }

  lemma PublishKeepsInv(w: World, provider: Provider, update: Update)
    requires Inv(w)
    ensures Extends(w, AfterPublish(w, provider, update)) && Inv(AfterPublish(w, provider, update))
  {
    hide Inv;
    Assemble(w, AfterPublish(w, provider, update), {});
  }

  lemma DropKeepsInv(w: World, t: TaskId)
    requires Inv(w)
    ensures Extends(w, AfterDrop(w, t)) && Inv(AfterDrop(w, t))
  {
    hide Inv;
    Assemble(w, AfterDrop(w, t), {});
  }

  lemma FetchKeepsInv(w: World, t: TaskId, updates: seq<Update>)
    requires Inv(w) && CanFetch(w, t, updates)
    ensures Extends(w, AfterFetch(w, t, updates)) && Inv(AfterFetch(w, t, updates))
  {
    hide Inv, IsAnswer;
    PollIsOk(w, t);
    Assemble(w, AfterFetch(w, t, updates), {});
  }

  lemma CommitKeepsInv(w: World, t: TaskId)
    requires Inv(w) && CanCommit(w, t)
    ensures Extends(w, AfterCommit(w, t)) && Inv(AfterCommit(w, t))
  {
    hide Inv;
    Assemble(w, AfterCommit(w, t), {});
  }

  lemma MatchKeepsInv(w: World, t: TaskId, found: Option<RowId>)
    requires Inv(w) && CanMatch(w, t, found)
    ensures Extends(w, AfterMatch(w, t, found)) && Inv(AfterMatch(w, t, found))
  {
    hide Inv;
    PollIsOk(w, t);
    Assemble(w, AfterMatch(w, t, found), {});
  }

  lemma NewStatusKeepsInv(w: World, t: TaskId)
    requires Inv(w) && CanApply(w, t)
    ensures Extends(w, AfterNewStatus(w, t)) && Inv(AfterNewStatus(w, t))
  {
    hide Inv, KeyOf;
    var v := AfterNewStatus(w, t);
    PollIsOk(w, t);
    RowSurvives(w, v, w.polls[t].matched.value.row);
    Assemble(w, v, {w.polls[t].matched.value.row});
  }

  lemma ApplyKeepsInv(w: World, t: TaskId)
    requires Inv(w) && CanApply(w, t)
    ensures Extends(w, AfterApply(w, t)) && Inv(AfterApply(w, t))
  {
    hide Inv, AfterNewStatus;
    if ReportedStatus(w, t) in w.history {
      PollIsOk(w, t);
      Assemble(w, AfterApply(w, t), {});
    } else {
      NewStatusKeepsInv(w, t);
    }
  }

  /** Whoever moves next, the invariant holds and nothing recorded is taken back. */
  lemma StepKeepsInv(w: World, step: Step)
    requires Inv(w) && Enabled(w, step)
    ensures Extends(w, Next(w, step)) && Inv(Next(w, step))
  {
    hide Inv, Extends;
    match step
    case Issue(_, _, _, _, _) => IssuingKeepsInv(w, step);
    case Receive(_, _, _, _) => IssuingKeepsInv(w, step);
    case SaveConnection(c, client, provider, active) => SaveConnectionKeepsInv(w, c, client, provider, active);
    case ReadInvoice(t, i) => ReadInvoiceKeepsInv(w, t, i);
    case ReadConnection(t, c) => ReadConnectionKeepsInv(w, t, c);
    case ReadRow(t, r) => ReadRowKeepsInv(w, t, r);
    case Insert(t, r, now) => InsertKeepsInv(w, t, r, now);
    case Claim(t, r, worker, now) => ClaimKeepsInv(w, t, r, worker, now);
    case Begin(t, now) => BeginKeepsInv(w, t, now);
    case Fail(t, permanent) => FailKeepsInv(w, t, permanent);
    case Send(t, receipt, delivered) => SendKeepsInv(w, t, receipt, delivered);
    case RecordSent(t, heard) => RecordSentKeepsInv(w, t, heard);
    case RecordFailure(t, jitter) => RecordFailureKeepsInv(w, t, jitter);
    case Requeue(t, now) => RequeueKeepsInv(w, t, now);
    case Fetch(t, updates) => FetchKeepsInv(w, t, updates);
    case CommitCursor(t) => CommitKeepsInv(w, t);
    case MatchStatus(t, found) => MatchKeepsInv(w, t, found);
    case ApplyStatus(t) => ApplyKeepsInv(w, t);
    case StartPoll(t, c, now) => StartPollKeepsInv(w, t, c, now);
    case Publish(provider, update) => PublishKeepsInv(w, provider, update);
    case Drop(t) => DropKeepsInv(w, t);
  }

  lemma {:induction false} ExecKeepsInv(w: World, steps: seq<Step>)
    requires Inv(w) && Exec(w, steps).Some?
    ensures Inv(Exec(w, steps).value)
  {
    if steps != [] {
      var before := steps[..|steps| - 1];
      ExecKeepsInv(w, before);
      StepKeepsInv(Exec(w, before).value, steps[|steps| - 1]);
    }
  }

  lemma ReachableInv(w: World)
    requires Reachable(w)
    ensures Inv(w)
  {
    var steps :| Exec(INITIAL, steps) == Some(w);
    ExecKeepsInv(INITIAL, steps);
  }

  lemma ExtendsTransitive(u: World, v: World, w: World)
    requires Extends(u, v) && Extends(v, w)
    ensures Extends(u, w)
  {
    forall p ensures Stream(u, p) <= Stream(w, p) {
      assert Stream(u, p) <= Stream(v, p) && Stream(v, p) <= Stream(w, p);
    }
  }

  /** Over a whole run nothing already recorded is taken back. */
  lemma {:induction false} RunExtends(w: World, steps: seq<Step>)
    requires Inv(w) && Exec(w, steps).Some?
    ensures Extends(w, Exec(w, steps).value)
  {
    hide Inv, Try;
    if steps != [] {
      var before := steps[..|steps| - 1];
      RunExtends(w, before);
      ExecKeepsInv(w, before);
      StepKeepsInv(Exec(w, before).value, steps[|steps| - 1]);
      ExtendsTransitive(w, Exec(w, before).value, Exec(w, steps).value);
    }
  }

  // ---------------------------------------------------------------------- the main theorem

  /**
   In every reachable state an invoice has at most one row and at most one document across all
   platforms; the document stands under the row's own platform and key, and an identifier recorded
   on the row is the one that document was accepted under.
   */
  lemma AtMostOneDocument(w: World, i: InvoiceId)
    requires Reachable(w)
    ensures forall r, q :: r in w.rows && q in w.rows && w.rows[r].invoice == i && w.rows[q].invoice == i ==> r == q
    ensures forall d, e :: d in w.documents && e in w.documents && d.key.invoice == i && e.key.invoice == i ==> d == e
    ensures forall d :: d in w.documents && d.key.invoice == i ==>
              exists r :: r in w.rows && w.rows[r].invoice == i && Backs(w, r, d)
    ensures forall r :: r in w.rows && w.rows[r].invoice == i && w.rows[r].externalId.Some? ==>
              Evidenced(w, r, w.rows[r].externalId.value) && DocumentOf(w, r).key.invoice == i
  {
    ReachableInv(w);
    forall d | d in w.documents && d.key.invoice == i
      ensures exists r :: r in w.rows && w.rows[r].invoice == i && Backs(w, r, d)
    {
      var r :| Backs(w, r, d);
      assert RowOk(w, r);
    }
    forall r, q | r in w.rows && q in w.rows && w.rows[r].invoice == i && w.rows[q].invoice == i
      ensures r == q
    {
      assert RowOk(w, r) && RowOk(w, q);
    }
    forall r | r in w.rows && w.rows[r].invoice == i && w.rows[r].externalId.Some?
      ensures Evidenced(w, r, w.rows[r].externalId.value) && DocumentOf(w, r).key.invoice == i
    {
      assert RowOk(w, r);
    }
  }

  lemma {:induction false} ExecSplits(w: World, first: seq<Step>, second: seq<Step>)
    requires Exec(w, first + second).Some?
    ensures Exec(w, first).Some?
    ensures Exec(Exec(w, first).value, second) == Exec(w, first + second)
  {
    hide Try;
    if second == [] {
      assert first + second == first;
    } else {
      var before, last := second[..|second| - 1], second[|second| - 1];
      assert (first + second)[..|first + second| - 1] == first + before;
      assert (first + second)[|first + second| - 1] == last;
      ExecSplits(w, first, before);
    }
  }

  lemma ReachableNext(w: World, step: Step)
    requires Reachable(w) && Enabled(w, step)
    ensures Reachable(Next(w, step))
  {
    hide Try;
    var steps :| Exec(INITIAL, steps) == Some(w);
    assert (steps + [step])[..|steps + [step]| - 1] == steps;
    assert Exec(INITIAL, steps + [step]) == Some(Next(w, step));
  }

  /** The same over time: whatever is tried later, the invoice's document and receipt stay the first ones. */
  lemma OneDocumentForever(first: seq<Step>, second: seq<Step>, d: DocumentId, e: DocumentId)
    requires Exec(INITIAL, first + second).Some? && Exec(INITIAL, first).Some?
    requires d in Exec(INITIAL, first).value.documents
    requires e in Exec(INITIAL, first + second).value.documents
    requires d.key.invoice == e.key.invoice
    ensures d == e
    ensures Exec(INITIAL, first).value.documents[d] == Exec(INITIAL, first + second).value.documents[e]
  {
    var u, v := Exec(INITIAL, first).value, Exec(INITIAL, first + second).value;
    ExecSplits(INITIAL, first, second);
    ExecKeepsInv(INITIAL, first);
    RunExtends(u, second);
    AtMostOneDocument(v, d.key.invoice);
  }

  /** A platform's identifier names one row of a connection, so a status cannot be filed under another invoice. */
  lemma StatusMatchesOneRow(w: World, c: ConnectionId, u: Update, r: RowId, q: RowId)
    requires Reachable(w) && r in w.rows && q in w.rows
    requires Matches(w.rows[r], c, u) && Matches(w.rows[q], c, u)
    ensures r == q
  {
    ReachableInv(w);
    assert RowOk(w, r) && RowOk(w, q);
  }
}
