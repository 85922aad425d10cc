/** A run with the in-memory platform: two sends half a second apart, and the status that falls between. */
module SandboxRun {
  import opened Prelude
  import opened Lifecycle
  import opened Pdp
  import opened PdpSafety
  import opened PdpCursor
  import opened Sandbox

  const ARCHIVE := [Artifact(FacturxPdf, 1), Artifact(CiiXml, 2)]

  function InvoiceIn(state: InvoiceState): Invoice {
    Invoice(Issued, state, 0, 0, ARCHIVE)
  }

  function QueuedRow(i: InvoiceId, at: Time): Row {
    Row(i, 0, Key(i, 1), PENDING, 1, None, at, None, None)
  }

  /** Invoice `i` is issued, its client connected, and nothing of it or of anyone is in progress. */
  ghost predicate Waiting(w: World, i: InvoiceId) {
    && i in w.invoices && w.invoices[i] == InvoiceIn(VALIDATED)
    && 0 in w.connections && w.connections[0].client == 0 && w.connections[0].provider == 0 && w.connections[0].active
    && i !in w.rows && (forall r :: r in w.rows ==> w.rows[r].key.invoice != i)
    && (forall d :: d in w.documents ==> d.key.invoice != i && w.documents[d].externalId != i)
    && w.enqueues == map[] && w.attempts == map[]
  }

  function Queued(w: World, i: InvoiceId, at: Time): World {
    w.(rows := w.rows[i := QueuedRow(i, at)], invoices := w.invoices[i := InvoiceIn(QUEUED)])
  }

  function Routed(w: World, i: InvoiceId): World {
    w.(enqueues := map[0 := Enqueue(i, VALIDATED, Key(i, 1), Some(0))])
  }

  lemma Routes(w: World, i: InvoiceId)
    requires Reachable(w) && Waiting(w, i)
    ensures Reachable(Routed(w, i))
  {
    hide Reachable;
    var read := w.(enqueues := map[0 := Enqueue(i, VALIDATED, Key(i, 1), None)]);
    assert AfterReadInvoice(w, 0, i) == read;
    Took(w, ReadInvoice(0, i), read);
    assert AfterReadConnection(read, 0, 0) == Routed(w, i);
    Took(read, ReadConnection(0, 0), Routed(w, i));
  }

  lemma Queues(w: World, i: InvoiceId, at: Time)
    requires Reachable(Routed(w, i)) && Waiting(w, i)
    ensures Reachable(Queued(w, i, at))
  {
    hide Reachable;
    assert AfterInsert(Routed(w, i), 0, i, at) == Queued(w, i, at);
    Took(Routed(w, i), Insert(0, i, at), Queued(w, i, at));
  }

  lemma Took(w: World, step: Step, v: World)
    requires Reachable(w) && Enabled(w, step) && v == Next(w, step)
    ensures Reachable(v)
  {
    hide Reachable, Try;
    ReachableNext(w, step);
  }

  function ClaimedRow(i: InvoiceId, at: Time): Row {
    QueuedRow(i, at).(claimedAt := Some(at), claimedBy := Some(1))
  }

  function Claimed(w: World, i: InvoiceId, at: Time): World {
    Queued(w, i, at).(rows := w.rows[i := ClaimedRow(i, at)],
                      attempts := map[0 := Attempt(i, ClaimedRow(i, at), Some(at), Outcome.Waiting)])
  }

  lemma Claims(w: World, i: InvoiceId, at: Time)
    requires Reachable(Queued(w, i, at)) && Waiting(w, i)
    ensures Reachable(Claimed(w, i, at))
  {
    hide Reachable;
    var queued := Queued(w, i, at);
    var claimed := Claimed(w, i, at).(attempts := map[0 := Attempt(i, ClaimedRow(i, at), None, Outcome.Waiting)]);
    assert AfterClaim(queued, 0, i, 1, at) == claimed;
    Took(queued, Claim(0, i, 1, at), claimed);
    assert AfterBegin(claimed, 0, at) == Claimed(w, i, at);
    Took(claimed, Begin(0, at), Claimed(w, i, at));
  }

  /** The sandbox mints the invoice's number here; any identifier not used before would do. */
  function AtPlatform(w: World, i: InvoiceId, clock: Readings): World {
    Claimed(w, i, clock.accepted).(
      documents := w.documents[DocumentId(0, Key(i, 1)) := Receipt(i, clock.accepted)],
      attempts := map[0 := Attempt(i, ClaimedRow(i, clock.accepted), Some(clock.accepted), Accepted(Receipt(i, clock.accepted)))])
  }

  lemma Sends(w: World, i: InvoiceId, clock: Readings)
    requires Reachable(Claimed(w, i, clock.accepted)) && Waiting(w, i)
    ensures Reachable(AtPlatform(w, i, clock))
  {
    hide Reachable;
    var claimed := Claimed(w, i, clock.accepted);
    assert AfterSend(claimed, 0, Receipt(i, clock.accepted), true) == AtPlatform(w, i, clock);
    Took(claimed, Send(0, Receipt(i, clock.accepted), true), AtPlatform(w, i, clock));
  }

  lemma Announces(w: World, i: InvoiceId, clock: Readings)
    requires Reachable(AtPlatform(w, i, clock))
    ensures Reachable(AtPlatform(w, i, clock).(published := w.published[0 := Stream(w, 0) + Announced(i, clock)]))
  {
    var accepted := AtPlatform(w, i, clock);
    assert accepted.published == w.published;
    hide Reachable, AtPlatform;
    var first, second := Announced(i, clock)[0], Announced(i, clock)[1];
    var once := AfterPublish(accepted, 0, first);
    Took(accepted, Publish(0, first), once);
    var twice := AfterPublish(once, 0, second);
    Took(once, Publish(0, second), twice);
    assert Stream(w, 0) + [first] + [second] == Stream(w, 0) + Announced(i, clock);
    assert twice.published == w.published[0 := Stream(w, 0) + Announced(i, clock)];
  }

  /** `w` after invoice `i` went to the sandbox and came back, its clock read at these times. */
  function Sent(w: World, i: InvoiceId, clock: Readings): World {
    w.(rows := w.rows[i := QueuedRow(i, clock.accepted).(state := SENT, externalId := Some(i))],
       invoices := w.invoices[i := InvoiceIn(TRANSMITTED)],
       documents := w.documents[DocumentId(0, Key(i, 1)) := Receipt(i, clock.accepted)],
       history := w.history + {Status(i, DEPOSEE, clock.accepted)},
       published := w.published[0 := Stream(w, 0) + Announced(i, clock)])
  }

  lemma Records(w: World, i: InvoiceId, clock: Readings)
    requires Reachable(AtPlatform(w, i, clock).(published := w.published[0 := Stream(w, 0) + Announced(i, clock)]))
    requires Waiting(w, i)
    ensures Reachable(Sent(w, i, clock))
  {
    hide Reachable, Announced, Stream;
    var told := AtPlatform(w, i, clock).(published := w.published[0 := Stream(w, 0) + Announced(i, clock)]);
    assert Advanced(QUEUED, DEPOSEE) == TRANSMITTED;
    hide Advanced, Waiting;
    assert AfterRecordSent(told, 0, true).rows == Sent(w, i, clock).rows;
    assert AfterRecordSent(told, 0, true) == Sent(w, i, clock);
    Took(told, RecordSent(0, true), Sent(w, i, clock));
  }

  lemma SendOne(w: World, i: InvoiceId, clock: Readings)
    requires Reachable(w) && Waiting(w, i)
    ensures Reachable(Sent(w, i, clock))
  {
    hide *;
    Routes(w, i);
    Queues(w, i, clock.accepted);
    Claims(w, i, clock.accepted);
    Sends(w, i, clock);
    Announces(w, i, clock);
    Records(w, i, clock);
  }

  // ---------------------------------------------------------------------- the run

  const COLD: Time := 100 - COLD_START_WINDOW_MS
  const FIRST := Readings(0, 0, 0)
  const SECOND := Readings(500, 501, 501)
  const LATE := Update(1, DEPOSEE, 501)
  const READ := Announced(0, FIRST)

  const CONNECTED := INITIAL.(
    invoices := map[0 := InvoiceIn(VALIDATED), 1 := InvoiceIn(VALIDATED)],
    connections := map[0 := Connection(0, 0, true, None, None)])

  const SENT_ONCE := CONNECTED.(
    rows := map[0 := QueuedRow(0, 0).(state := SENT, externalId := Some(0))],
    invoices := map[0 := InvoiceIn(TRANSMITTED), 1 := InvoiceIn(VALIDATED)],
    documents := map[DocumentId(0, Key(0, 1)) := Receipt(0, 0)],
    history := {Status(0, DEPOSEE, 0)},
    published := map[0 := READ])

  const DELIVERED_ONCE := SENT_ONCE.(
    rows := map[0 := QueuedRow(0, 0).(state := ACKNOWLEDGED, externalId := Some(0))],
    invoices := map[0 := InvoiceIn(DELIVERED), 1 := InvoiceIn(VALIDATED)],
    history := {Status(0, DEPOSEE, 0), Status(0, RECUE_PAR_LA_PLATEFORME_DESTINATAIRE, 1000)})

  const POLLED := DELIVERED_ONCE.(connections := map[0 := Connection(0, 0, true, Some(1000), Some(COLD))])

  function Polling(w: World, pending: seq<Update>, matched: Option<Match>, watermark: Option<Time>): World {
    w.(polls := map[0 := Poll(0, COLD, true, Some(pending), matched, watermark)])
  }

  lemma Connects()
    ensures Reachable(CONNECTED)
  {
    assert Exec(INITIAL, []) == Some(INITIAL);
    hide Reachable;
    var once := INITIAL.(invoices := map[0 := InvoiceIn(VALIDATED)]);
    Took(INITIAL, Issue(0, 0, 0, 1, 2), once);
    var twice := INITIAL.(invoices := map[0 := InvoiceIn(VALIDATED), 1 := InvoiceIn(VALIDATED)]);
    Took(once, Issue(1, 0, 0, 1, 2), twice);
    assert AfterSaveConnection(twice, 0, 0, 0, true) == CONNECTED;
    Took(twice, SaveConnection(0, 0, 0, true), CONNECTED);
  }

  lemma SendsOnce()
    ensures Reachable(SENT_ONCE)
  {
    Connects();
    hide Reachable;
    assert Waiting(CONNECTED, 0);
    SendOne(CONNECTED, 0, FIRST);
    assert [] + READ == READ;
    assert Sent(CONNECTED, 0, FIRST) == SENT_ONCE;
  }

  lemma Fetches()
    ensures Reachable(Polling(SENT_ONCE, READ, None, None))
  {
    SendsOnce();
    hide Reachable;
    var started := SENT_ONCE.(polls := map[0 := Poll(0, COLD, true, None, None, None)]);
    Took(SENT_ONCE, StartPoll(0, 0, 100), started);
    assert READ == [Update(0, DEPOSEE, 0), Update(0, RECUE_PAR_LA_PLATEFORME_DESTINATAIRE, 1000)];
    assert AfterFetch(started, 0, READ) == Polling(SENT_ONCE, READ, None, None);
    Took(started, Fetch(0, READ), Polling(SENT_ONCE, READ, None, None));
  }

  lemma FindsTheRow(pending: seq<Update>, watermark: Option<Time>)
    requires Reachable(Polling(SENT_ONCE, pending, None, watermark)) && pending != [] && pending[0].externalId == 0
    ensures Reachable(Polling(SENT_ONCE, pending, Some(Match(0, 0, SENT)), watermark))
  {
    hide Reachable;
    var w := Polling(SENT_ONCE, pending, None, watermark);
    assert AfterMatch(w, 0, Some(0)) == Polling(SENT_ONCE, pending, Some(Match(0, 0, SENT)), watermark);
    Took(w, MatchStatus(0, Some(0)), AfterMatch(w, 0, Some(0)));
  }

  /** The deposit is on record already, with the receipt the send returned. */
  lemma ReadsDeposit()
    ensures Reachable(Polling(SENT_ONCE, READ[1..], None, Some(0)))
  {
    Fetches();
    FindsTheRow(READ, None);
    hide Reachable;
    var matched := Polling(SENT_ONCE, READ, Some(Match(0, 0, SENT)), None);
    assert ReportedStatus(matched, 0) == Status(0, DEPOSEE, 0);
    hide AfterNewStatus;
    assert AfterApply(matched, 0) == Polling(SENT_ONCE, READ[1..], None, Some(0));
    Took(matched, ApplyStatus(0), AfterApply(matched, 0));
  }

  lemma ReadsDelivery()
    ensures Reachable(Polling(DELIVERED_ONCE, [], None, Some(1000)))
  {
    ReadsDeposit();
    FindsTheRow(READ[1..], Some(0));
    hide Reachable;
    var matched := Polling(SENT_ONCE, READ[1..], Some(Match(0, 0, SENT)), Some(0));
    Delivers();
    hide AfterNewStatus;
    assert ReportedStatus(matched, 0) == Status(0, RECUE_PAR_LA_PLATEFORME_DESTINATAIRE, 1000);
    Took(matched, ApplyStatus(0), AfterNewStatus(matched, 0));
  }

  lemma Delivers()
    ensures var matched := Polling(SENT_ONCE, READ[1..], Some(Match(0, 0, SENT)), Some(0));
            CanApply(matched, 0) && AfterNewStatus(matched, 0) == Polling(DELIVERED_ONCE, [], None, Some(1000))
  {
    var matched := Polling(SENT_ONCE, READ[1..], Some(Match(0, 0, SENT)), Some(0));
    assert READ[1..] == [Update(0, RECUE_PAR_LA_PLATEFORME_DESTINATAIRE, 1000)];
    assert Advance(matched.polls[0]) == Polling(DELIVERED_ONCE, [], None, Some(1000)).polls[0];
    assert Advanced(TRANSMITTED, RECUE_PAR_LA_PLATEFORME_DESTINATAIRE) == DELIVERED;
  }

  lemma Polls()
    ensures Reachable(POLLED)
  {
    ReadsDelivery();
    hide Reachable;
    var w := Polling(DELIVERED_ONCE, [], None, Some(1000));
    assert AfterCommit(w, 0) == POLLED;
    Took(w, CommitCursor(0), POLLED);
  }

  /**
   It happens: the sandbox dates a delivery one second ahead, a poll reads it, and the deposit of a send
   half a second after the first is published behind the cursor. It is lost, and no continuation reads it.
   */
  lemma SandboxStampsLoseAStatus() returns (w: World)
    ensures Reachable(w) && 0 in w.connections
    ensures StreamOf(w, 0) == Announced(0, FIRST) + Announced(1, SECOND) && LATE == Announced(1, SECOND)[0]
    ensures Lost(w, 0, LATE) && Passed(w, 0, LATE.occurredAt)
  {
    Polls();
    assert Waiting(POLLED, 1);
    SendOne(POLLED, 1, SECOND);
    w := Sent(POLLED, 1, SECOND);
    hide Reachable;
    forall r ensures !RecordedOn(w, 0, LATE, r) {}
  }

}
