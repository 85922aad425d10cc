/**
 The transmission pipeline as a state machine.

 `World` holds the database tables, what the platforms hold, and every operation in progress.
 A `Step` is one database transaction, one statement or read outside a transaction, one call a
 platform answers, or a crash. A `now` carried by a step is whatever that process's clock says.
 */
module Pdp {
  import opened Prelude
  import opened Lifecycle

  type Time = int // milliseconds
  type InvoiceId = nat
  type RowId = nat
  type ClientId = nat
  type ConnectionId = nat
  type Provider = nat
  type ExternalId = nat
  type WorkerId = nat
  type TaskId = nat
  type Hash = nat

  const CLAIM_LEASE_MS: Time := 5 * 60 * 1000
  const COLD_START_WINDOW_MS: Time := 24 * 60 * 60 * 1000
  const BACKOFF_SECONDS: seq<nat> := [30, 120, 600, 1800, 3600]
  const MAX_ATTEMPTS := 6

  // ---------------------------------------------------------------------- entities

  datatype Direction = Issued | Received
  datatype ArtifactKind = FacturxPdf | CiiXml
  datatype Artifact = Artifact(kind: ArtifactKind, hash: Hash)
  datatype Invoice = Invoice(
    direction: Direction, state: InvoiceState, client: ClientId, createdAt: Time, archive: seq<Artifact>)

  /** The deduplication key: a free constructor, since the digest it is cut from is taken as collision free. */
  datatype Key = Key(invoice: InvoiceId, hash: Hash)

  datatype RowState = PENDING | SENT | ACKNOWLEDGED | FAILED
  datatype Row = Row(
    invoice: InvoiceId, connection: ConnectionId, key: Key, state: RowState, attempt: nat,
    externalId: Option<ExternalId>, nextAttemptAt: Time, claimedAt: Option<Time>, claimedBy: Option<WorkerId>)

  /** `coldStart` is a history variable: where the window began that first set the cursor. */
  datatype Connection = Connection(
    client: ClientId, provider: Provider, active: bool, statusCursor: Option<Time>, coldStart: Option<Time>)

  /** A document a platform holds, and the receipt it answers for it. */
  datatype DocumentId = DocumentId(provider: Provider, key: Key)
  datatype Receipt = Receipt(externalId: ExternalId, acceptedAt: Time)
  datatype Update = Update(externalId: ExternalId, code: Code, occurredAt: Time)
  datatype Status = Status(invoice: InvoiceId, code: Code, occurredAt: Time)

  // ---------------------------------------------------------------------- operations in progress

  /** `enqueue` between its invoice read and its transaction. */
  datatype Enqueue = Enqueue(
    invoice: InvoiceId, seen: InvoiceState, key: Key, connection: Option<ConnectionId>)

  datatype Outcome = Waiting | Accepted(receipt: Receipt) | Failed(permanent: bool)

  /** A worker's attempt: the row as `claim` returned it, and how the send has gone so far. */
  datatype Attempt = Attempt(row: RowId, snapshot: Row, startedAt: Option<Time>, outcome: Outcome)

  datatype Match = Match(row: RowId, invoice: InvoiceId, seen: RowState)

  /** A status poll: `pending` is `None` until the platform has answered. */
  datatype Poll = Poll(
    connection: ConnectionId, since: Time, cold: bool,
    pending: Option<seq<Update>>, matched: Option<Match>, watermark: Option<Time>)

  datatype World = World(
    invoices: map<InvoiceId, Invoice>,
    rows: map<RowId, Row>,
    connections: map<ConnectionId, Connection>,
    history: set<Status>,                       // unique on (invoice, code, occurredAt)
    unmatched: set<(ConnectionId, Update)>,     // the warnings logged for statuses that matched no row
    documents: map<DocumentId, Receipt>,
    published: map<Provider, seq<Update>>,
    enqueues: map<TaskId, Enqueue>,
    attempts: map<TaskId, Attempt>,
    retries: map<TaskId, RowId>,
    polls: map<TaskId, Poll>)

  const INITIAL := World(map[], map[], map[], {}, {}, map[], map[], map[], map[], map[], map[])

  // ---------------------------------------------------------------------- issuing and connecting

  predicate CanIssue(w: World, i: InvoiceId) {
    i !in w.invoices
  }

  /** One transaction: the invoice and both sealed renditions. */
  function AfterIssue(w: World, i: InvoiceId, client: ClientId, createdAt: Time, pdf: Hash, xml: Hash): World
    requires CanIssue(w, i)
  {
    var invoice := Invoice(Issued, VALIDATED, client, createdAt, [Artifact(FacturxPdf, pdf), Artifact(CiiXml, xml)]);
    w.(invoices := w.invoices[i := invoice])
  }

  function AfterReceive(w: World, i: InvoiceId, client: ClientId, createdAt: Time, archive: seq<Artifact>): World
    requires CanIssue(w, i)
  {
    w.(invoices := w.invoices[i := Invoice(Received, DELIVERED, client, createdAt, archive)])
  }

  /** Saving is an upsert on (client, provider). */
  predicate CanSaveConnection(w: World, c: ConnectionId, client: ClientId, provider: Provider) {
    if c in w.connections then w.connections[c].client == client && w.connections[c].provider == provider
    else forall d :: d in w.connections ==> w.connections[d].client != client || w.connections[d].provider != provider
  }

  /** Activating a connection switches off the client's other platforms in the same transaction. */
  function AfterSaveConnection(w: World, c: ConnectionId, client: ClientId, provider: Provider, active: bool): World
    requires CanSaveConnection(w, c, client, provider)
  {
    var saved :=
      if c in w.connections then w.connections[c].(active := active)
      else Connection(client, provider, active, None, None);
    var others := map d | d in w.connections ::
      if active && w.connections[d].client == client && w.connections[d].provider != provider
      then w.connections[d].(active := false)
      else w.connections[d];
    w.(connections := others[c := saved])
  }

  // ---------------------------------------------------------------------- enqueue

  function Find(archive: seq<Artifact>, kind: ArtifactKind): Option<Artifact> {
    if archive == [] then None
    else if archive[0].kind == kind then Some(archive[0])
    else Find(archive[1..], kind)
  }

  /** The artifact handed over: the PDF, or failing that the XML. */
  function Handover(archive: seq<Artifact>): Option<Artifact> {
    match Find(archive, FacturxPdf)
    case Some(pdf) => Some(pdf)
    case None => Find(archive, CiiXml)
  }

  function KeyOf(w: World, i: InvoiceId): Option<Key>
    requires i in w.invoices
  {
    match Handover(w.invoices[i].archive)
    case Some(artifact) => Some(Key(i, artifact.hash))
    case None => None
  }

  predicate CanReadInvoice(w: World, t: TaskId, i: InvoiceId) {
    && t !in w.enqueues
    && i in w.invoices
    && w.invoices[i].direction == Issued
    && KeyOf(w, i).Some?
  }

  function AfterReadInvoice(w: World, t: TaskId, i: InvoiceId): World
    requires CanReadInvoice(w, t, i)
  {
    w.(enqueues := w.enqueues[t := Enqueue(i, w.invoices[i].state, KeyOf(w, i).value, None)])
  }

  predicate CanReadConnection(w: World, t: TaskId, c: ConnectionId) {
    && t in w.enqueues
    && w.enqueues[t].connection.None?
    && w.enqueues[t].invoice in w.invoices
    && c in w.connections
    && w.connections[c].active
    && w.connections[c].client == w.invoices[w.enqueues[t].invoice].client
  }

  function AfterReadConnection(w: World, t: TaskId, c: ConnectionId): World
    requires CanReadConnection(w, t, c)
  {
    w.(enqueues := w.enqueues[t := w.enqueues[t].(connection := Some(c))])
  }

  predicate KeyTaken(w: World, key: Key) {
    exists r :: r in w.rows && w.rows[r].key == key
  }

  /** The unique constraint on the key is what can refuse this. */
  predicate CanInsert(w: World, t: TaskId, r: RowId) {
    && t in w.enqueues
    && w.enqueues[t].connection.Some?
    && w.enqueues[t].invoice in w.invoices
    && r !in w.rows
    && !KeyTaken(w, w.enqueues[t].key)
  }

  function AfterInsert(w: World, t: TaskId, r: RowId, now: Time): World
    requires CanInsert(w, t, r)
  {
    var e := w.enqueues[t];
    var row := Row(e.invoice, e.connection.value, e.key, PENDING, 1, None, now, None, None);
    var state := if e.seen == VALIDATED || e.seen == DRAFT then QUEUED else w.invoices[e.invoice].state;
    w.(rows := w.rows[r := row],
       invoices := w.invoices[e.invoice := w.invoices[e.invoice].(state := state)],
       enqueues := w.enqueues - {t})
  }

  // ---------------------------------------------------------------------- claim and attempt

  predicate Due(row: Row, now: Time) {
    && row.state == PENDING
    && row.nextAttemptAt <= now
    && (row.claimedAt.None? || row.claimedAt.value < now - CLAIM_LEASE_MS)
  }

  predicate CanClaim(w: World, t: TaskId, r: RowId, now: Time) {
    t !in w.attempts && r in w.rows && Due(w.rows[r], now)
  }

  /** One row of a claim; a batch is this step once per row. */
  function AfterClaim(w: World, t: TaskId, r: RowId, worker: WorkerId, now: Time): World
    requires CanClaim(w, t, r, now)
  {
    var row := w.rows[r].(claimedAt := Some(now), claimedBy := Some(worker));
    w.(rows := w.rows[r := row], attempts := w.attempts[t := Attempt(r, row, None, Waiting)])
  }

  predicate CanBegin(w: World, t: TaskId) {
    t in w.attempts && w.attempts[t].startedAt.None?
  }

  function AfterBegin(w: World, t: TaskId, now: Time): World
    requires CanBegin(w, t)
  {
    w.(attempts := w.attempts[t := w.attempts[t].(startedAt := Some(now))])
  }

  predicate HasDocumentId(w: World, r: RowId) {
    r in w.rows && w.rows[r].connection in w.connections
  }

  /** The document a row stands for: its connection's platform, under its key. */
  function DocumentOf(w: World, r: RowId): DocumentId
    requires HasDocumentId(w, r)
  {
    DocumentId(w.connections[w.rows[r].connection].provider, w.rows[r].key)
  }

  /** The platform mints an identifier it has not given to another document. */
  predicate FreshReceipt(w: World, provider: Provider, receipt: Receipt) {
    forall d :: d in w.documents && d.provider == provider ==> w.documents[d].externalId != receipt.externalId
  }

  predicate CanSend(w: World, t: TaskId, receipt: Receipt) {
    && t in w.attempts
    && w.attempts[t].startedAt.Some?
    && w.attempts[t].outcome == Waiting
    && HasDocumentId(w, w.attempts[t].row)
    && (DocumentOf(w, w.attempts[t].row) in w.documents
        || FreshReceipt(w, DocumentOf(w, w.attempts[t].row).provider, receipt))
  }

  /** A known key replays its first receipt; `delivered` says whether the answer reached the worker. */
  function AfterSend(w: World, t: TaskId, receipt: Receipt, delivered: bool): World
    requires CanSend(w, t, receipt)
  {
    var d := DocumentOf(w, w.attempts[t].row);
    var documents := if d in w.documents then w.documents else w.documents[d := receipt];
    var outcome := if delivered then Accepted(documents[d]) else Failed(false);
    w.(documents := documents, attempts := w.attempts[t := w.attempts[t].(outcome := outcome)])
  }

  /** A failure before the platform accepted, or of the transaction that should have recorded it. */
  predicate CanFail(w: World, t: TaskId, permanent: bool) {
    && t in w.attempts
    && w.attempts[t].startedAt.Some?
    && (w.attempts[t].outcome == Waiting || (w.attempts[t].outcome.Accepted? && !permanent))
  }

  function AfterFail(w: World, t: TaskId, permanent: bool): World
    requires CanFail(w, t, permanent)
  {
    w.(attempts := w.attempts[t := w.attempts[t].(outcome := Failed(permanent))])
  }

  predicate CanRecordSent(w: World, t: TaskId) {
    && t in w.attempts
    && w.attempts[t].outcome.Accepted?
    && w.attempts[t].row in w.rows
    && w.attempts[t].snapshot.invoice in w.invoices
  }

  /** `heard` says whether the worker learnt that the transaction committed; if not, it goes on to record a failure. */
  function AfterRecordSent(w: World, t: TaskId, heard: bool): World
    requires CanRecordSent(w, t)
  {
    var a := w.attempts[t];
    var i := a.snapshot.invoice;
    var row := w.rows[a.row].(
      state := SENT, externalId := Some(a.outcome.receipt.externalId), claimedAt := None, claimedBy := None);
    w.(rows := w.rows[a.row := row],
       history := w.history + {Status(i, DEPOSEE, a.outcome.receipt.acceptedAt)},
       invoices := w.invoices[i := w.invoices[i].(state := Advanced(w.invoices[i].state, DEPOSEE))],
       attempts := if heard then w.attempts - {t} else w.attempts[t := a.(outcome := Failed(false))])
  }

  function DelaySeconds(attempt: nat): nat {
    BACKOFF_SECONDS[if attempt < |BACKOFF_SECONDS| then attempt else |BACKOFF_SECONDS| - 1]
  }

  predicate IsJitter(jitter: nat, attempt: nat) {
    jitter < if DelaySeconds(attempt) < 30 then DelaySeconds(attempt) else 30
  }

  /** The row after a failure: computed from the worker's snapshot, written over whatever is there. */
  function FailedRow(row: Row, snapshot: Row, permanent: bool, startedAt: Time, jitter: nat): Row {
    var attempt := snapshot.attempt + 1;
    var park := permanent || attempt > MAX_ATTEMPTS;
    row.(state := if park then RowState.FAILED else PENDING,
         attempt := attempt,
         claimedAt := None,
         claimedBy := None,
         nextAttemptAt := if park then snapshot.nextAttemptAt
                          else startedAt + (DelaySeconds(snapshot.attempt) + jitter) * 1000)
  }

  predicate CanRecordFailure(w: World, t: TaskId, jitter: nat) {
    && t in w.attempts
    && w.attempts[t].startedAt.Some?
    && w.attempts[t].outcome.Failed?
    && w.attempts[t].row in w.rows
    && IsJitter(jitter, w.attempts[t].snapshot.attempt)
  }

  function AfterRecordFailure(w: World, t: TaskId, jitter: nat): World
    requires CanRecordFailure(w, t, jitter)
  {
    var a := w.attempts[t];
    var row := FailedRow(w.rows[a.row], a.snapshot, a.outcome.permanent, a.startedAt.value, jitter);
    var code := if row.state == RowState.FAILED then TRANSMISSION_ABANDONNEE else TRANSMISSION_ECHOUEE;
    w.(rows := w.rows[a.row := row],
       history := w.history + {Status(a.snapshot.invoice, code, a.startedAt.value)},
       attempts := w.attempts - {t})
  }

  // ---------------------------------------------------------------------- manual retry

  predicate CanReadRow(w: World, t: TaskId, r: RowId) {
    && t !in w.retries
    && r in w.rows
    && w.rows[r].state != SENT
    && w.rows[r].state != ACKNOWLEDGED
  }

  function AfterReadRow(w: World, t: TaskId, r: RowId): World
    requires CanReadRow(w, t, r)
  {
    w.(retries := w.retries[t := r])
  }

  predicate CanRequeue(w: World, t: TaskId) {
    t in w.retries && w.retries[t] in w.rows
  }

  function AfterRequeue(w: World, t: TaskId, now: Time): World
    requires CanRequeue(w, t)
  {
    var r := w.retries[t];
    var row := w.rows[r].(state := PENDING, nextAttemptAt := now, attempt := 0, claimedAt := None, claimedBy := None);
    w.(rows := w.rows[r := row], retries := w.retries - {t})
  }

  // ---------------------------------------------------------------------- status polling

  predicate Acknowledging(code: Code) {
    || code == MISE_A_DISPOSITION
    || code == RECUE_PAR_LA_PLATEFORME_DESTINATAIRE
    || code == APPROUVEE
    || code == APPROUVEE_PARTIELLEMENT
  }

  function Stream(w: World, provider: Provider): seq<Update> {
    if provider in w.published then w.published[provider] else []
  }

  predicate CanStartPoll(w: World, t: TaskId, c: ConnectionId) {
    t !in w.polls && c in w.connections
  }

  function AfterStartPoll(w: World, t: TaskId, c: ConnectionId, now: Time): World
    requires CanStartPoll(w, t, c)
  {
    var cursor := w.connections[c].statusCursor;
    var poll := Poll(c, cursor.UnwrapOr(now - COLD_START_WINDOW_MS), cursor.None?, None, None, None);
    w.(polls := w.polls[t := poll])
  }

  predicate SortedByTime(updates: seq<Update>) {
    forall j, k :: 0 <= j < k < |updates| ==> updates[j].occurredAt <= updates[k].occurredAt
  }

  /** `updates` is what the platform answers for `since`, sorted oldest first. */
  predicate IsAnswer(stream: seq<Update>, since: Time, updates: seq<Update>) {
    && SortedByTime(updates)
    && (forall u :: u in updates ==> u in stream && u.occurredAt > since)
    && (forall u :: u in stream && u.occurredAt > since ==> u in updates)
  }

  predicate CanFetch(w: World, t: TaskId, updates: seq<Update>) {
    && t in w.polls
    && w.polls[t].pending.None?
    && w.polls[t].connection in w.connections
    && IsAnswer(Stream(w, w.connections[w.polls[t].connection].provider), w.polls[t].since, updates)
  }

  function AfterFetch(w: World, t: TaskId, updates: seq<Update>): World
    requires CanFetch(w, t, updates)
  {
    w.(polls := w.polls[t := w.polls[t].(pending := Some(updates))])
  }

  predicate Matches(row: Row, c: ConnectionId, u: Update) {
    row.connection == c && row.externalId == Some(u.externalId)
  }

  predicate HasPending(w: World, t: TaskId) {
    t in w.polls && w.polls[t].pending.Some? && w.polls[t].pending.value != []
  }

  function Head(p: Poll): Update
    requires p.pending.Some? && p.pending.value != []
  {
    p.pending.value[0]
  }

  function Advance(p: Poll): Poll
    requires p.pending.Some? && p.pending.value != []
  {
    p.(pending := Some(p.pending.value[1..]), matched := None, watermark := Some(Head(p).occurredAt))
  }

  predicate Finds(w: World, c: ConnectionId, u: Update, found: Option<RowId>) {
    if found.Some? then found.value in w.rows && Matches(w.rows[found.value], c, u)
    else forall r :: r in w.rows ==> !Matches(w.rows[r], c, u)
  }

  /** The read that looks for a transmission carrying the reported identifier. */
  predicate CanMatch(w: World, t: TaskId, found: Option<RowId>) {
    && HasPending(w, t)
    && w.polls[t].matched.None?
    && Finds(w, w.polls[t].connection, Head(w.polls[t]), found)
  }

  function AfterMatch(w: World, t: TaskId, found: Option<RowId>): World
    requires CanMatch(w, t, found)
  {
    var p := w.polls[t];
    if found.Some? then
      var row := w.rows[found.value];
      w.(polls := w.polls[t := p.(matched := Some(Match(found.value, row.invoice, row.state)))])
    else
      w.(polls := w.polls[t := Advance(p)], unmatched := w.unmatched + {(p.connection, Head(p))})
  }

  predicate CanApply(w: World, t: TaskId) {
    && HasPending(w, t)
    && w.polls[t].matched.Some?
    && w.polls[t].matched.value.row in w.rows
    && w.polls[t].matched.value.invoice in w.invoices
  }

  /** How a status newly recorded moves the row it matched; `seen` is the state read before the transaction. */
  function AppliedRow(row: Row, seen: RowState, code: Code): Row {
    if Acknowledging(code) && seen == SENT then row.(state := ACKNOWLEDGED)
    else if Implied(code) == Some(REJECTED) && row.state == PENDING then row.(state := RowState.FAILED)
    else row
  }

  function ReportedStatus(w: World, t: TaskId): Status
    requires CanApply(w, t)
  {
    var u := Head(w.polls[t]);
    Status(w.polls[t].matched.value.invoice, u.code, u.occurredAt)
  }

  /** A status seen for the first time: history, invoice and row move together. */
  function AfterNewStatus(w: World, t: TaskId): World
    requires CanApply(w, t)
  {
    var p := w.polls[t];
    var m, u := p.matched.value, Head(p);
    var invoice := w.invoices[m.invoice];
    w.(polls := w.polls[t := Advance(p)],
       history := w.history + {ReportedStatus(w, t)},
       invoices := w.invoices[m.invoice := invoice.(state := Advanced(invoice.state, u.code))],
       rows := w.rows[m.row := AppliedRow(w.rows[m.row], m.seen, u.code)])
  }

  function AfterApply(w: World, t: TaskId): World
    requires CanApply(w, t)
  {
    if ReportedStatus(w, t) in w.history then w.(polls := w.polls[t := Advance(w.polls[t])])
    else AfterNewStatus(w, t)
  }

  predicate CanCommit(w: World, t: TaskId) {
    && t in w.polls
    && w.polls[t].pending == Some([])
    && w.polls[t].watermark.Some?
    && w.polls[t].connection in w.connections
  }

  function Max(a: Time, b: Time): Time {
    if a < b then b else a
  }

  function AfterCommit(w: World, t: TaskId): World
    requires CanCommit(w, t)
  {
    var p := w.polls[t];
    var connection := w.connections[p.connection];
    var coldStart :=
      if p.cold then Some(Max(p.since, connection.coldStart.UnwrapOr(p.since))) else connection.coldStart;
    w.(connections := w.connections[p.connection := connection.(statusCursor := p.watermark, coldStart := coldStart)],
       polls := w.polls - {t})
  }

  function AfterPublish(w: World, provider: Provider, update: Update): World {
    w.(published := w.published[provider := Stream(w, provider) + [update]])
  }

  /** A crash, or an operation that returns early. */
  function AfterDrop(w: World, t: TaskId): World {
    w.(enqueues := w.enqueues - {t}, attempts := w.attempts - {t}, retries := w.retries - {t}, polls := w.polls - {t})
  }

  // ---------------------------------------------------------------------- steps and runs

  datatype Step =
    | Issue(invoice: InvoiceId, client: ClientId, createdAt: Time, pdf: Hash, xml: Hash)
    | Receive(invoice: InvoiceId, client: ClientId, createdAt: Time, archive: seq<Artifact>)
    | SaveConnection(connection: ConnectionId, client: ClientId, provider: Provider, active: bool)
    | ReadInvoice(task: TaskId, invoice: InvoiceId)
    | ReadConnection(task: TaskId, connection: ConnectionId)
    | Insert(task: TaskId, row: RowId, now: Time)
    | Claim(task: TaskId, row: RowId, worker: WorkerId, now: Time)
    | Begin(task: TaskId, now: Time)
    | Send(task: TaskId, receipt: Receipt, delivered: bool)
    | Fail(task: TaskId, permanent: bool)
    | RecordSent(task: TaskId, heard: bool)
    | RecordFailure(task: TaskId, jitter: nat)
    | ReadRow(task: TaskId, row: RowId)
    | Requeue(task: TaskId, now: Time)
    | StartPoll(task: TaskId, connection: ConnectionId, now: Time)
    | Fetch(task: TaskId, updates: seq<Update>)
    | MatchStatus(task: TaskId, found: Option<RowId>)
    | ApplyStatus(task: TaskId)
    | CommitCursor(task: TaskId)
    | Publish(provider: Provider, update: Update)
    | Drop(task: TaskId)

  /** The world after `step`, or `None` when its guard does not hold. */
  function Try(w: World, step: Step): Option<World> {
    match step
    case Issue(i, client, createdAt, pdf, xml) => if CanIssue(w, i) then Some(AfterIssue(w, i, client, createdAt, pdf, xml)) else None
    case Receive(i, client, createdAt, archive) => if CanIssue(w, i) then Some(AfterReceive(w, i, client, createdAt, archive)) else None
    case SaveConnection(c, client, provider, active) => if CanSaveConnection(w, c, client, provider) then Some(AfterSaveConnection(w, c, client, provider, active)) else None
    case ReadInvoice(t, i) => if CanReadInvoice(w, t, i) then Some(AfterReadInvoice(w, t, i)) else None
    case ReadConnection(t, c) => if CanReadConnection(w, t, c) then Some(AfterReadConnection(w, t, c)) else None
    case Insert(t, r, now) => if CanInsert(w, t, r) then Some(AfterInsert(w, t, r, now)) else None
    case Claim(t, r, worker, now) => if CanClaim(w, t, r, now) then Some(AfterClaim(w, t, r, worker, now)) else None
    case Begin(t, now) => if CanBegin(w, t) then Some(AfterBegin(w, t, now)) else None
    case Send(t, receipt, delivered) => if CanSend(w, t, receipt) then Some(AfterSend(w, t, receipt, delivered)) else None
    case Fail(t, permanent) => if CanFail(w, t, permanent) then Some(AfterFail(w, t, permanent)) else None
    case RecordSent(t, heard) => if CanRecordSent(w, t) then Some(AfterRecordSent(w, t, heard)) else None
    case RecordFailure(t, jitter) => if CanRecordFailure(w, t, jitter) then Some(AfterRecordFailure(w, t, jitter)) else None
    case ReadRow(t, r) => if CanReadRow(w, t, r) then Some(AfterReadRow(w, t, r)) else None
    case Requeue(t, now) => if CanRequeue(w, t) then Some(AfterRequeue(w, t, now)) else None
    case StartPoll(t, c, now) => if CanStartPoll(w, t, c) then Some(AfterStartPoll(w, t, c, now)) else None
    case Fetch(t, updates) => if CanFetch(w, t, updates) then Some(AfterFetch(w, t, updates)) else None
    case MatchStatus(t, found) => if CanMatch(w, t, found) then Some(AfterMatch(w, t, found)) else None
    case ApplyStatus(t) => if CanApply(w, t) then Some(AfterApply(w, t)) else None
    case CommitCursor(t) => if CanCommit(w, t) then Some(AfterCommit(w, t)) else None
    case Publish(provider, update) => Some(AfterPublish(w, provider, update))
    case Drop(t) => Some(AfterDrop(w, t))
  }

  predicate Enabled(w: World, step: Step) {
    Try(w, step).Some?
  }

  function Next(w: World, step: Step): World
    requires Enabled(w, step)
  {
    Try(w, step).value
  }

  /** Runs `steps` in order, or `None` if one of them is not enabled when its turn comes. */
  function Exec(w: World, steps: seq<Step>): Option<World> {
    if steps == [] then Some(w)
    else
      match Exec(w, steps[..|steps| - 1])
      case None => None
      case Some(before) =>
        Try(before, steps[|steps| - 1])
  }

  ghost predicate Reachable(w: World) {
    exists steps :: Exec(INITIAL, steps) == Some(w)
  }
}
