/**
 The status cursor: exactly which published statuses it is safe to leave to it, however many polls of
 one connection run at once and wherever they crash.
 */
module PdpCursor {
  import opened Prelude
  import opened Lifecycle
  import opened Pdp
  import opened PdpSafety

  import PdpSync
  import Sandbox

  // ---------------------------------------------------------------------- dealt with, safe, lost

  ghost predicate RecordedOn(w: World, c: ConnectionId, u: Update, r: RowId) {
    && r in w.rows
    && Matches(w.rows[r], c, u)
    && Status(w.rows[r].invoice, u.code, u.occurredAt) in w.history
  }

  /** Filed in the history of the invoice it names, or logged as matching nothing. */
  ghost predicate Handled(w: World, c: ConnectionId, u: Update) {
    (c, u) in w.unmatched || exists r :: RecordedOn(w, c, u, r)
  }

  ghost function StreamOf(w: World, c: ConnectionId): seq<Update>
    requires c in w.connections
  {
    Stream(w, w.connections[c].provider)
  }

  /** How far the poll's cursor would reach if it finished now. */
  function Horizon(p: Poll): Option<Time>
    requires p.pending.Some?
  {
    if p.pending.value == [] then p.watermark
    else Some(p.pending.value[|p.pending.value| - 1].occurredAt)
  }

  /** Carried to its end, the poll reads `u`, stops short of it, or starts the connection's coverage after it. */
  predicate Harmless(p: Poll, u: Update) {
    || (p.cold && u.occurredAt <= p.since)
    || match p.pending
       case None => p.since < u.occurredAt
       case Some(pending) => u in pending || Horizon(p).None? || Horizon(p).value < u.occurredAt
  }

  predicate ShortOf(connection: Connection, t: Time) {
    connection.statusCursor.None? || connection.statusCursor.value < t
  }

  /** Older than the window the connection started from. */
  predicate BeforeStart(connection: Connection, t: Time) {
    connection.coldStart.Some? && t <= connection.coldStart.value
  }

  ghost predicate Ahead(w: World, c: ConnectionId, u: Update)
    requires c in w.connections
  {
    && ShortOf(w.connections[c], u.occurredAt)
    && (forall p :: p in w.polls && w.polls[p].connection == c ==> Harmless(w.polls[p], u))
  }

  ghost predicate Secure(w: World, c: ConnectionId, u: Update)
    requires c in w.connections
  {
    Handled(w, c, u) || BeforeStart(w.connections[c], u.occurredAt) || Ahead(w, c, u)
  }

  /** The cursor stands at or past a status the connection should have covered, and nobody dealt with it. */
  ghost predicate Lost(w: World, c: ConnectionId, u: Update) {
    && c in w.connections
    && w.connections[c].statusCursor.Some? && u.occurredAt <= w.connections[c].statusCursor.value
    && w.connections[c].coldStart.Some? && w.connections[c].coldStart.value < u.occurredAt
    && !Handled(w, c, u)
  }

  // ---------------------------------------------------------------------- how far cursors and polls reach

  ghost predicate Published(stream: seq<Update>, t: Time) {
    exists u :: u in stream && t <= u.occurredAt
  }

  ghost predicate CursorOk(w: World, c: ConnectionId)
    requires c in w.connections
  {
    w.connections[c].statusCursor.Some? ==>
      && w.connections[c].coldStart.Some?
      && Published(StreamOf(w, c), w.connections[c].statusCursor.value)
  }

  /** A poll works on what was published, and one that is not a first poll continues from a cursor. */
  ghost predicate PollReach(w: World, p: Poll) {
    && p.connection in w.connections
    && (!p.cold ==> w.connections[p.connection].coldStart.Some? && Published(StreamOf(w, p.connection), p.since))
    && (p.pending.None? ==> p.watermark.None?)
    && (p.pending.Some? ==>
          && (forall u :: u in p.pending.value ==> u in StreamOf(w, p.connection))
          && (Horizon(p).Some? ==> Published(StreamOf(w, p.connection), Horizon(p).value)))
  }

  ghost predicate CursorInv(w: World) {
    && Inv(w)
    && (forall c :: c in w.connections ==> CursorOk(w, c))
    && (forall t :: t in w.polls ==> PollReach(w, w.polls[t]))
  }

  lemma CursorHasInv(w: World)
    requires CursorInv(w)
    ensures Inv(w)
  {}

  lemma PollReaches(w: World, t: TaskId)
    requires CursorInv(w) && t in w.polls
    ensures PollReach(w, w.polls[t]) && w.polls[t].connection in w.connections
  {}

  lemma HandledSurvives(w: World, v: World, c: ConnectionId, u: Update)
    requires Extends(w, v) && Handled(w, c, u)
    ensures Handled(v, c, u)
  {
    if (c, u) !in w.unmatched {
      var r :| RecordedOn(w, c, u, r);
      assert RecordedOn(v, c, u, r);
    }
  }

  lemma PublishedSurvives(stream: seq<Update>, longer: seq<Update>, t: Time)
    requires stream <= longer && Published(stream, t)
    ensures Published(longer, t)
  {
    var u :| u in stream && t <= u.occurredAt;
    assert u in longer;
  }

  lemma StreamGrows(w: World, v: World, c: ConnectionId)
    requires Extends(w, v) && c in w.connections
    ensures c in v.connections && StreamOf(w, c) <= StreamOf(v, c)
  {
    assert Stream(w, w.connections[c].provider) <= Stream(v, w.connections[c].provider);
  }

  lemma CursorSurvives(w: World, v: World, c: ConnectionId)
    requires Extends(w, v) && c in w.connections && CursorOk(w, c)
    requires c in v.connections && v.connections[c].statusCursor == w.connections[c].statusCursor
    requires v.connections[c].coldStart == w.connections[c].coldStart
    ensures CursorOk(v, c)
  {
    StreamGrows(w, v, c);
    hide Extends, StreamOf, Published;
    if w.connections[c].statusCursor.Some? {
      PublishedSurvives(StreamOf(w, c), StreamOf(v, c), w.connections[c].statusCursor.value);
    }
  }

  lemma ReachSurvives(w: World, v: World, p: Poll)
    requires Extends(w, v) && PollReach(w, p) && p.connection in v.connections
    requires w.connections[p.connection].coldStart.Some? ==> v.connections[p.connection].coldStart.Some?
    ensures PollReach(v, p)
  {
    StreamGrows(w, v, p.connection);
    var before, after := StreamOf(w, p.connection), StreamOf(v, p.connection);
    hide Extends, StreamOf, Published;
    if !p.cold {
      PublishedSurvives(before, after, p.since);
    }
    if p.pending.Some? && Horizon(p).Some? {
      PublishedSurvives(before, after, Horizon(p).value);
    }
    assert forall u :: u in before ==> u in after;
  }

  /** Steps that commit no cursor. */
  ghost predicate CursorsAside(w: World, v: World) {
    forall c :: c in v.connections ==>
      if c in w.connections
      then && v.connections[c].statusCursor == w.connections[c].statusCursor
           && v.connections[c].coldStart == w.connections[c].coldStart
      else v.connections[c].statusCursor.None?
  }

  ghost predicate NothingPublished(w: World, v: World) {
    v.connections.Keys == w.connections.Keys && v.published == w.published
  }

  ghost predicate OtherPollsAside(w: World, v: World, t: TaskId) {
    forall q :: q in v.polls && q != t ==> q in w.polls && v.polls[q] == w.polls[q]
  }

  lemma AsideKeepsCursor(w: World, v: World, t: TaskId)
    requires CursorInv(w) && Inv(v) && Extends(w, v) && CursorsAside(w, v) && OtherPollsAside(w, v, t)
    requires t in v.polls ==> PollReach(v, v.polls[t])
    ensures CursorInv(v)
  {
    hide Inv, CursorOk, PollReach, Extends;
    forall c | c in v.connections ensures CursorOk(v, c) {
      if c in w.connections {
        CursorSurvives(w, v, c);
      } else {
        NoCursorIsOk(v, c);
      }
    }
    forall q | q in v.polls && q != t ensures PollReach(v, v.polls[q]) {
      PollReaches(w, q);
      StreamGrows(w, v, w.polls[q].connection);
      ReachSurvives(w, v, w.polls[q]);
    }
  }

  lemma NoCursorIsOk(v: World, c: ConnectionId)
    requires c in v.connections && v.connections[c].statusCursor.None?
    ensures CursorOk(v, c)
  {}

  /** A status that was safe stays so when only poll `t` moves, if that poll stays harmless to it. */
  lemma AsideKeepsSecure(w: World, v: World, t: TaskId, c: ConnectionId, u: Update)
    requires Extends(w, v) && CursorsAside(w, v) && OtherPollsAside(w, v, t)
    requires c in w.connections && Secure(w, c, u)
    requires t in v.polls && v.polls[t].connection == c && Ahead(w, c, u) ==> Harmless(v.polls[t], u) || Handled(v, c, u)
    ensures c in v.connections && Secure(v, c, u)
  {
    StreamGrows(w, v, c);
    if Handled(w, c, u) {
      HandledSurvives(w, v, c, u);
    }
    hide Extends, Handled, Harmless;
  }

  // ---------------------------------------------------------------------- the steps of a poll

  lemma StartPollAside(w: World, t: TaskId, c: ConnectionId, now: Time)
    requires CanStartPoll(w, t, c)
    ensures CursorsAside(w, AfterStartPoll(w, t, c, now)) && OtherPollsAside(w, AfterStartPoll(w, t, c, now), t)
    ensures NothingPublished(w, AfterStartPoll(w, t, c, now))
  {}

  lemma StartPollKeepsCursor(w: World, t: TaskId, c: ConnectionId, now: Time)
    requires CursorInv(w) && CanStartPoll(w, t, c)
    ensures CursorInv(AfterStartPoll(w, t, c, now))
  {
    hide *;
    CursorHasInv(w);
    StartPollKeepsInv(w, t, c, now);
    StartedReaches(w, t, c, now);
    StartPollAside(w, t, c, now);
    AsideKeepsCursor(w, AfterStartPoll(w, t, c, now), t);
  }

  lemma StartedReaches(w: World, t: TaskId, c: ConnectionId, now: Time)
    requires CursorInv(w) && CanStartPoll(w, t, c)
    ensures t in AfterStartPoll(w, t, c, now).polls
    ensures PollReach(AfterStartPoll(w, t, c, now), AfterStartPoll(w, t, c, now).polls[t])
  {
    assert CursorOk(w, c);
    hide Inv, CursorInv, Published;
    assert StreamOf(AfterStartPoll(w, t, c, now), c) == StreamOf(w, c);
  }

  lemma StartPollIsHarmless(w: World, t: TaskId, c: ConnectionId, now: Time, u: Update)
    requires CanStartPoll(w, t, c) && ShortOf(w.connections[c], u.occurredAt)
    ensures Harmless(AfterStartPoll(w, t, c, now).polls[t], u)
  {}

  lemma FetchAside(w: World, t: TaskId, updates: seq<Update>)
    requires CanFetch(w, t, updates)
    ensures CursorsAside(w, AfterFetch(w, t, updates)) && OtherPollsAside(w, AfterFetch(w, t, updates), t)
    ensures NothingPublished(w, AfterFetch(w, t, updates))
    ensures t in w.polls && AfterFetch(w, t, updates).polls[t].connection == w.polls[t].connection
  {
    hide IsAnswer;
  }

  lemma FetchKeepsCursor(w: World, t: TaskId, updates: seq<Update>)
    requires CursorInv(w) && CanFetch(w, t, updates)
    ensures CursorInv(AfterFetch(w, t, updates))
  {
    var v := AfterFetch(w, t, updates);
    FetchKeepsInv(w, t, updates);
    PollReaches(w, t);
    assert PollReach(v, v.polls[t]) by {
      hide CursorInv, Inv, Extends;
      assert StreamOf(v, w.polls[t].connection) == StreamOf(w, w.polls[t].connection);
      if updates != [] {
        assert updates[|updates| - 1] in StreamOf(w, w.polls[t].connection);
      }
    }
    hide *;
    FetchAside(w, t, updates);
    AsideKeepsCursor(w, v, t);
  }

  lemma FetchIsHarmless(w: World, t: TaskId, updates: seq<Update>, u: Update)
    requires CanFetch(w, t, updates) && Harmless(w.polls[t], u) && u in StreamOf(w, w.polls[t].connection)
    ensures Harmless(AfterFetch(w, t, updates).polls[t], u)
  {}

  /** A head dealt with leaves the poll as harmless to every other status, and its reach as it was. */
  lemma AdvanceIsHarmless(p: Poll, u: Update)
    requires p.pending.Some? && p.pending.value != [] && Harmless(p, u)
    ensures u == Head(p) || Harmless(Advance(p), u)
  {
    assert Horizon(Advance(p)) == Horizon(p);
    assert p.pending.value == [Head(p)] + p.pending.value[1..];
  }

  lemma AdvanceKeepsReach(w: World, p: Poll)
    requires p.pending.Some? && p.pending.value != [] && PollReach(w, p)
    ensures PollReach(w, Advance(p))
  {
    assert Horizon(Advance(p)) == Horizon(p);
    hide StreamOf, Published;
    assert forall u :: u in Advance(p).pending.value ==> u in p.pending.value;
  }

  lemma MatchAside(w: World, t: TaskId, found: Option<RowId>)
    requires CanMatch(w, t, found)
    ensures var v := AfterMatch(w, t, found);
            && CursorsAside(w, v) && OtherPollsAside(w, v, t) && NothingPublished(w, v) && v.connections == w.connections
            && HasPending(w, t) && t in w.polls && t in v.polls && w.polls[t].matched.None?
            && v.polls == w.polls[t := v.polls[t]]
            && (if found.Some? then v.polls[t] == w.polls[t].(matched := v.polls[t].matched)
                else v.polls[t] == Advance(w.polls[t]) && Handled(v, w.polls[t].connection, Head(w.polls[t])))
  {}

  lemma NewStatusAside(w: World, t: TaskId)
    requires CanApply(w, t)
    ensures var v := AfterNewStatus(w, t);
            && v.connections == w.connections && v.published == w.published
            && v.polls == w.polls[t := Advance(w.polls[t])] && ReportedStatus(w, t) in v.history
  {
    hide Advanced, AppliedRow, ReportedStatus;
  }

  lemma ApplyAside(w: World, t: TaskId)
    requires CanApply(w, t)
    ensures var v := AfterApply(w, t);
            && CursorsAside(w, v) && OtherPollsAside(w, v, t) && NothingPublished(w, v) && v.connections == w.connections
            && HasPending(w, t) && t in w.polls && t in v.polls
            && v.polls == w.polls[t := v.polls[t]] && v.polls[t] == Advance(w.polls[t])
            && ReportedStatus(w, t) in v.history
  {
    hide AfterNewStatus, ReportedStatus;
    if ReportedStatus(w, t) !in w.history {
      NewStatusAside(w, t);
    }
  }

  lemma MatchedRow(w: World, t: TaskId)
    requires Inv(w) && CanApply(w, t)
    ensures MatchOk(w, w.polls[t].connection, w.polls[t].matched.value, Head(w.polls[t]).externalId)
  {
    PollIsOk(w, t);
  }

  lemma ApplyHandles(w: World, t: TaskId)
    requires Inv(w) && CanApply(w, t)
    ensures Handled(AfterApply(w, t), w.polls[t].connection, Head(w.polls[t]))
  {
    var v := AfterApply(w, t);
    ApplyKeepsInv(w, t);
    MatchedRow(w, t);
    ApplyAside(w, t);
    var r := w.polls[t].matched.value.row;
    hide Inv, AfterApply;
    assert RecordedOn(v, w.polls[t].connection, Head(w.polls[t]), r);
  }

  /** Reading on: the poll keeps its head or drops it, and a head it drops has been dealt with. */
  ghost predicate ReadsOn(w: World, v: World, t: TaskId) {
    && HasPending(w, t) && t in w.polls && t in v.polls
    && (|| v.polls[t] == w.polls[t].(matched := v.polls[t].matched)
        || (v.polls[t] == Advance(w.polls[t]) && Handled(v, w.polls[t].connection, Head(w.polls[t]))))
  }

  lemma ReadingReadsOn(w: World, step: Step)
    requires Inv(w) && Enabled(w, step) && (step.MatchStatus? || step.ApplyStatus?)
    ensures CursorsAside(w, Next(w, step)) && OtherPollsAside(w, Next(w, step), step.task)
    ensures ReadsOn(w, Next(w, step), step.task) && NothingPublished(w, Next(w, step))
  {
    hide Inv, AfterMatch, AfterApply, CanMatch, CanApply, Handled, CursorsAside, OtherPollsAside, NothingPublished;
    if step.MatchStatus? {
      MatchAside(w, step.task, step.found);
    } else {
      ApplyAside(w, step.task);
      ApplyHandles(w, step.task);
    }
  }

  lemma ReadingKeepsCursor(w: World, step: Step)
    requires CursorInv(w) && Enabled(w, step) && (step.MatchStatus? || step.ApplyStatus?)
    ensures CursorInv(Next(w, step))
  {
    hide *;
    CursorHasInv(w);
    StepKeepsInv(w, step);
    ReadingReadsOn(w, step);
    ReadOnKeepsReach(w, Next(w, step), step.task);
    AsideKeepsCursor(w, Next(w, step), step.task);
  }

  lemma ReadOnKeepsReach(w: World, v: World, t: TaskId)
    requires CursorInv(w) && Extends(w, v) && CursorsAside(w, v) && ReadsOn(w, v, t)
    ensures PollReach(v, v.polls[t])
  {
    var p := w.polls[t];
    PollReaches(w, t);
    hide CursorInv, Handled;
    StreamGrows(w, v, p.connection);
    ReachSurvives(w, v, p);
    AdvanceKeepsReach(v, p);
    hide Extends, StreamOf, Published;
    assert v.polls[t] != Advance(p) ==> Horizon(p) == Horizon(v.polls[t]);
  }

  lemma ReadOnIsHarmless(w: World, v: World, t: TaskId, u: Update)
    requires ReadsOn(w, v, t) && Harmless(w.polls[t], u)
    ensures Harmless(v.polls[t], u) || Handled(v, w.polls[t].connection, u)
    ensures v.polls[t].connection == w.polls[t].connection
  {
    AdvanceIsHarmless(w.polls[t], u);
  }

  lemma CommitAside(w: World, t: TaskId)
    requires CanCommit(w, t)
    ensures var v, p := AfterCommit(w, t), w.polls[t];
            && NothingPublished(w, v) && v.polls == w.polls - {t}
            && (forall c :: c in w.connections && c != p.connection ==> v.connections[c] == w.connections[c])
            && v.connections[p.connection].provider == w.connections[p.connection].provider
            && v.connections[p.connection].statusCursor == p.watermark && p.watermark == Horizon(p)
  {}

  /** A first poll's window starts the coverage, and never starts it earlier than it started before. */
  lemma CommitStart(w: World, t: TaskId, at: Time)
    requires CanCommit(w, t)
    ensures var p := w.polls[t];
            var before, after := w.connections[p.connection], AfterCommit(w, t).connections[p.connection];
            && (p.cold || before.coldStart.Some? <==> after.coldStart.Some?)
            && (BeforeStart(after, at) <==> BeforeStart(before, at) || (p.cold && at <= p.since))
  {}

  lemma CommitKeepsCursor(w: World, t: TaskId)
    requires CursorInv(w) && CanCommit(w, t)
    ensures CursorInv(AfterCommit(w, t))
  {
    var v := AfterCommit(w, t);
    CommitKeepsInv(w, t);
    PollReaches(w, t);
    CommitAside(w, t);
    CommitStart(w, t, 0);
    hide Inv, CanCommit, AfterCommit, Extends, Published, CursorOk, PollReach, Horizon, BeforeStart;
    forall c | c in v.connections ensures CursorOk(v, c) {
      if c != w.polls[t].connection {
        CursorSurvives(w, v, c);
      } else {
        assert StreamOf(v, c) == StreamOf(w, c);
        CommittedIsOk(w, v, t);
      }
    }
    forall q | q in v.polls ensures PollReach(v, v.polls[q]) {
      PollReaches(w, q);
      ReachSurvives(w, v, w.polls[q]);
    }
  }

  lemma CommittedIsOk(w: World, v: World, t: TaskId)
    requires t in w.polls && PollReach(w, w.polls[t]) && w.polls[t].pending.Some? && Horizon(w.polls[t]) == w.polls[t].watermark
    requires w.polls[t].connection in v.connections && StreamOf(v, w.polls[t].connection) == StreamOf(w, w.polls[t].connection)
    requires v.connections[w.polls[t].connection].statusCursor == w.polls[t].watermark
    requires w.polls[t].cold || w.connections[w.polls[t].connection].coldStart.Some? ==>
               v.connections[w.polls[t].connection].coldStart.Some?
    ensures CursorOk(v, w.polls[t].connection)
  {
    hide StreamOf, Published;
  }

  // ---------------------------------------------------------------------- every step

  predicate MovesPolls(step: Step) {
    step.StartPoll? || step.Fetch? || step.MatchStatus? || step.ApplyStatus? || step.CommitCursor?
  }

  lemma OtherAside(w: World, step: Step)
    requires Enabled(w, step) && !MovesPolls(step)
    ensures CursorsAside(w, Next(w, step)) && OtherPollsAside(w, Next(w, step), 0)
    ensures forall q :: q in Next(w, step).polls ==> q in w.polls && Next(w, step).polls[q] == w.polls[q]
    ensures !step.Publish? ==> Next(w, step).published == w.published
  {
    hide CanIssue, CanSaveConnection, CanReadInvoice, CanReadConnection, CanInsert, CanClaim, CanBegin, CanSend, CanFail,
         CanRecordSent, CanRecordFailure, CanReadRow, CanRequeue, CanStartPoll, CanFetch, CanMatch, CanApply, CanCommit;
    var v := Next(w, step);
    assert !step.Publish? ==> v.published == w.published;
    if !step.SaveConnection? && !step.Drop? {
      assert v.connections == w.connections && v.polls == w.polls;
    }
  }

  lemma PollsPublishNothing(w: World, step: Step)
    requires Inv(w) && Enabled(w, step) && MovesPolls(step)
    ensures NothingPublished(w, Next(w, step))
  {
    hide *;
    if step.StartPoll? {
      TakenStartPoll(w, step);
      StartPollAside(w, step.task, step.connection, step.now);
    } else if step.Fetch? {
      TakenFetch(w, step);
      FetchAside(w, step.task, step.updates);
    } else if step.CommitCursor? {
      TakenCommit(w, step.task);
      CommitAside(w, step.task);
    } else {
      MovesByReading(step);
      ReadingReadsOn(w, step);
    }
  }

  lemma MovesByReading(step: Step)
    requires MovesPolls(step) && !step.StartPoll? && !step.Fetch? && !step.CommitCursor?
    ensures step.MatchStatus? || step.ApplyStatus?
  {}

  lemma OtherKeepsCursor(w: World, step: Step)
    requires CursorInv(w) && Enabled(w, step) && !MovesPolls(step)
    ensures CursorInv(Next(w, step))
  {
    hide *;
    var v := Next(w, step);
    CursorHasInv(w);
    StepKeepsInv(w, step);
    OtherAside(w, step);
    if 0 in v.polls {
      UntouchedReach(w, v, 0);
    }
    AsideKeepsCursor(w, v, 0);
  }

  lemma UntouchedReach(w: World, v: World, t: TaskId)
    requires CursorInv(w) && Extends(w, v) && CursorsAside(w, v) && t in w.polls
    ensures PollReach(v, w.polls[t])
  {
    PollReaches(w, t);
    hide CursorInv;
    StreamGrows(w, v, w.polls[t].connection);
    ReachSurvives(w, v, w.polls[t]);
  }

  lemma StepKeepsCursor(w: World, step: Step)
    requires CursorInv(w) && Enabled(w, step)
    ensures CursorInv(Next(w, step))
  {
    hide CursorInv, CanStartPoll, CanFetch, CanMatch, CanApply, CanCommit,
         AfterStartPoll, AfterFetch, AfterMatch, AfterApply, AfterCommit;
    if step.StartPoll? {
      StartPollKeepsCursor(w, step.task, step.connection, step.now);
    } else if step.Fetch? {
      FetchKeepsCursor(w, step.task, step.updates);
    } else if step.CommitCursor? {
      CommitKeepsCursor(w, step.task);
    } else if step.MatchStatus? || step.ApplyStatus? {
      ReadingKeepsCursor(w, step);
    } else {
      OtherKeepsCursor(w, step);
    }
  }

  lemma {:induction false} ExecKeepsCursor(w: World, steps: seq<Step>)
    requires CursorInv(w) && Exec(w, steps).Some?
    ensures CursorInv(Exec(w, steps).value)
  {
    hide CursorInv, Try;
    if steps != [] {
      var before := steps[..|steps| - 1];
      ExecKeepsCursor(w, before);
      StepKeepsCursor(Exec(w, before).value, steps[|steps| - 1]);
    }
  }

  lemma ReachableCursor(w: World)
    requires Reachable(w)
    ensures CursorInv(w)
  {
    var steps :| Exec(INITIAL, steps) == Some(w);
    ExecKeepsCursor(INITIAL, steps);
  }

  // ---------------------------------------------------------------------- what is safe stays safe

  lemma PollingKeepsSecure(w: World, step: Step, c: ConnectionId, u: Update)
    requires Inv(w) && Enabled(w, step) && (step.StartPoll? || step.Fetch? || step.MatchStatus? || step.ApplyStatus?)
    requires c in w.connections && u in StreamOf(w, c) && Secure(w, c, u)
    ensures c in Next(w, step).connections && Secure(Next(w, step), c, u)
  {
    hide *;
    var v, t := Next(w, step), step.task;
    StepKeepsInv(w, step);
    if step.StartPoll? {
      TakenStartPoll(w, step);
      StartPollAside(w, t, step.connection, step.now);
      if step.connection == c && Ahead(w, c, u) {
        AheadIsShort(w, c, u);
        StartPollIsHarmless(w, t, c, step.now, u);
      }
    } else if step.Fetch? {
      TakenFetch(w, step);
      FetchAside(w, t, step.updates);
      if w.polls[t].connection == c && Ahead(w, c, u) {
        AheadHasPoll(w, c, u, t);
        FetchIsHarmless(w, t, step.updates, u);
      }
    } else {
      ReadingReadsOn(w, step);
      HasRead(w, v, t);
      if w.polls[t].connection == c && Ahead(w, c, u) {
        AheadHasPoll(w, c, u, t);
        ReadOnIsHarmless(w, v, t, u);
      }
    }
    AsideKeepsSecure(w, v, t, c, u);
  }

  lemma TakenStartPoll(w: World, step: Step)
    requires Enabled(w, step) && step.StartPoll?
    ensures CanStartPoll(w, step.task, step.connection) && step.connection in w.connections
    ensures Next(w, step) == AfterStartPoll(w, step.task, step.connection, step.now)
    ensures step.task in Next(w, step).polls && Next(w, step).polls[step.task].connection == step.connection
  {}

  lemma TakenFetch(w: World, step: Step)
    requires Enabled(w, step) && step.Fetch?
    ensures CanFetch(w, step.task, step.updates) && Next(w, step) == AfterFetch(w, step.task, step.updates)
    ensures step.task in w.polls && step.task in Next(w, step).polls && w.polls[step.task].connection in w.connections
  {
    hide IsAnswer;
  }

  lemma HasRead(w: World, v: World, t: TaskId)
    requires ReadsOn(w, v, t)
    ensures t in w.polls && t in v.polls && v.polls[t].connection == w.polls[t].connection
  {}

  lemma AheadIsShort(w: World, c: ConnectionId, u: Update)
    requires c in w.connections && Ahead(w, c, u)
    ensures ShortOf(w.connections[c], u.occurredAt)
  {}

  lemma AheadHasPoll(w: World, c: ConnectionId, u: Update, t: TaskId)
    requires c in w.connections && Ahead(w, c, u) && t in w.polls && w.polls[t].connection == c
    ensures Harmless(w.polls[t], u)
  {}

  lemma CommitKeepsSecure(w: World, t: TaskId, c: ConnectionId, u: Update)
    requires Inv(w) && CanCommit(w, t) && c in w.connections && Secure(w, c, u)
    ensures c in AfterCommit(w, t).connections && Secure(AfterCommit(w, t), c, u)
  {
    var v, p := AfterCommit(w, t), w.polls[t];
    CommitKeepsInv(w, t);
    CommitAside(w, t);
    CommitStart(w, t, u.occurredAt);
    if Handled(w, c, u) {
      HandledSurvives(w, v, c, u);
    }
    hide Handled, AfterCommit, BeforeStart, Inv, Extends;
    if Ahead(w, c, u) && !BeforeStart(v.connections[p.connection], u.occurredAt) && p.connection == c {
      assert Harmless(p, u);
    }
  }

  lemma OtherKeepsSecure(w: World, step: Step, c: ConnectionId, u: Update)
    requires Inv(w) && Enabled(w, step) && !MovesPolls(step) && c in w.connections && Secure(w, c, u)
    ensures c in Next(w, step).connections && Secure(Next(w, step), c, u)
  {
    hide *;
    var v := Next(w, step);
    StepKeepsInv(w, step);
    OtherAside(w, step);
    if 0 in v.polls && v.polls[0].connection == c && Ahead(w, c, u) {
      AheadHasPoll(w, c, u, 0);
    }
    AsideKeepsSecure(w, v, 0, c, u);
  }

  lemma StepKeepsSecure(w: World, step: Step, c: ConnectionId, u: Update)
    requires Inv(w) && Enabled(w, step) && c in w.connections && u in StreamOf(w, c) && Secure(w, c, u)
    ensures c in Next(w, step).connections && u in StreamOf(Next(w, step), c) && Secure(Next(w, step), c, u)
  {
    hide *;
    StepKeepsInv(w, step);
    StreamGrows(w, Next(w, step), c);
    if step.CommitCursor? {
      TakenCommit(w, step.task);
      CommitKeepsSecure(w, step.task, c, u);
    } else if step.StartPoll? || step.Fetch? || step.MatchStatus? || step.ApplyStatus? {
      PollingKeepsSecure(w, step, c, u);
    } else {
      NotMoving(step);
      OtherKeepsSecure(w, step, c, u);
    }
  }

  lemma TakenCommit(w: World, t: TaskId)
    requires Enabled(w, CommitCursor(t))
    ensures CanCommit(w, t) && Next(w, CommitCursor(t)) == AfterCommit(w, t)
  {}

  lemma NotMoving(step: Step)
    requires !step.StartPoll? && !step.Fetch? && !step.MatchStatus? && !step.ApplyStatus? && !step.CommitCursor?
    ensures !MovesPolls(step)
  {}

  lemma {:induction false} ExecKeepsSecure(w: World, steps: seq<Step>, c: ConnectionId, u: Update)
    requires Inv(w) && Exec(w, steps).Some? && c in w.connections && u in StreamOf(w, c) && Secure(w, c, u)
    ensures var v := Exec(w, steps).value; c in v.connections && u in StreamOf(v, c) && Secure(v, c, u)
  {
    hide Inv, Try, Secure, StreamOf;
    if steps != [] {
      var before := steps[..|steps| - 1];
      ExecKeepsSecure(w, before, c, u);
      ExecKeepsInv(w, before);
      StepKeepsSecure(Exec(w, before).value, steps[|steps| - 1], c, u);
    }
  }

  lemma SecureIsNotLost(w: World, c: ConnectionId, u: Update)
    requires c in w.connections && Secure(w, c, u)
    ensures !Lost(w, c, u)
  {
    hide Handled;
  }

  // ---------------------------------------------------------------------- what is not safe can be lost

  /** Some run takes `w` to `v`. */
  ghost predicate Leads(w: World, v: World) {
    exists steps :: Exec(w, steps) == Some(v)
  }

  lemma LeadsToItself(w: World)
    ensures Leads(w, w)
  {
    assert Exec(w, []) == Some(w);
  }

  lemma LeadsOn(origin: World, w: World, step: Step)
    requires Leads(origin, w) && Enabled(w, step)
    ensures Leads(origin, Next(w, step))
  {
    hide Try;
    var steps :| Exec(origin, steps) == Some(w);
    assert (steps + [step])[..|steps + [step]| - 1] == steps;
    assert Exec(origin, steps + [step]) == Some(Next(w, step));
  }

  lemma MatchHandlesOnlyHead(w: World, t: TaskId, found: Option<RowId>, u: Update)
    requires CanMatch(w, t, found) && u != Head(w.polls[t]) && !Handled(w, w.polls[t].connection, u)
    ensures !Handled(AfterMatch(w, t, found), w.polls[t].connection, u)
  {
    var v := AfterMatch(w, t, found);
    forall r ensures !RecordedOn(v, w.polls[t].connection, u, r) {
      assert !RecordedOn(w, w.polls[t].connection, u, r);
    }
  }

  lemma OneRowAnInvoice(w: World, r: RowId, q: RowId)
    requires Inv(w) && r in w.rows && q in w.rows && w.rows[r].invoice == w.rows[q].invoice
    ensures r == q
  {
    RowIsOk(w, r);
    RowIsOk(w, q);
  }

  /** Filing the head under its invoice files nothing else: an invoice has one row, a row one identifier. */
  lemma ApplyHandlesOnlyHead(w: World, t: TaskId, u: Update)
    requires Inv(w) && CanApply(w, t) && u != Head(w.polls[t]) && !Handled(w, w.polls[t].connection, u)
    ensures !Handled(AfterApply(w, t), w.polls[t].connection, u)
  {
    var v, c, m := AfterApply(w, t), w.polls[t].connection, w.polls[t].matched.value;
    MatchedRow(w, t);
    ApplyWrites(w, t);
    forall r | r in w.rows && w.rows[r].invoice == m.invoice ensures r == m.row {
      OneRowAnInvoice(w, r, m.row);
    }
    hide Inv, AfterApply;
    forall r ensures !RecordedOn(v, c, u, r) {
      assert !RecordedOn(w, c, u, r);
    }
  }

  lemma NewStatusWrites(w: World, t: TaskId)
    requires CanApply(w, t)
    ensures var v, m := AfterNewStatus(w, t), w.polls[t].matched.value;
            && v.rows == w.rows[m.row := AppliedRow(w.rows[m.row], m.seen, Head(w.polls[t]).code)]
            && v.history == w.history + {ReportedStatus(w, t)} && v.unmatched == w.unmatched
  {
    hide Advanced, AppliedRow;
  }

  lemma ApplyWrites(w: World, t: TaskId)
    requires CanApply(w, t)
    ensures var v := AfterApply(w, t);
            && v.rows.Keys == w.rows.Keys
            && (forall r :: r in w.rows ==> v.rows[r] == w.rows[r].(state := v.rows[r].state))
            && (forall s :: s in v.history <==> s in w.history || s == ReportedStatus(w, t)) && v.unmatched == w.unmatched
  {
    hide AfterNewStatus, ReportedStatus;
    if ReportedStatus(w, t) !in w.history {
      NewStatusWrites(w, t);
    }
  }

  /** One read or transaction of a poll that still has statuses to work through. */
  lemma ReadOne(w: World, t: TaskId, u: Update) returns (step: Step)
    requires Inv(w) && HasPending(w, t) && u != Head(w.polls[t]) && !Handled(w, w.polls[t].connection, u)
    ensures Enabled(w, step) && !Handled(Next(w, step), w.polls[t].connection, u)
    ensures Next(w, step).connections == w.connections && t in Next(w, step).polls
    ensures var p, q := w.polls[t], Next(w, step).polls[t];
            q == Advance(p) || (p.matched.None? && q.matched.Some? && q == p.(matched := q.matched))
  {
    hide *;
    PendingHere(w, t);
    if w.polls[t].matched.Some? {
      MatchedApplies(w, t);
      ApplyHandlesOnlyHead(w, t, u);
      ApplyAside(w, t);
      step := ApplyStatus(t);
    } else {
      var found := Lookup(w, w.polls[t].connection, Head(w.polls[t]));
      MatchTakes(w, t, found);
      MatchHandlesOnlyHead(w, t, found, u);
      MatchAside(w, t, found);
      step := MatchStatus(t, found);
    }
  }

  lemma PendingHere(w: World, t: TaskId)
    requires HasPending(w, t)
    ensures t in w.polls && w.polls[t].pending.Some? && w.polls[t].pending.value != []
  {}

  lemma MatchedApplies(w: World, t: TaskId)
    requires Inv(w) && HasPending(w, t) && w.polls[t].matched.Some?
    ensures CanApply(w, t) && Enabled(w, ApplyStatus(t)) && Next(w, ApplyStatus(t)) == AfterApply(w, t)
  {
    PollIsOk(w, t);
    hide AfterApply;
  }

  lemma Lookup(w: World, c: ConnectionId, u: Update) returns (found: Option<RowId>)
    ensures Finds(w, c, u, found)
  {
    if r :| r in w.rows && Matches(w.rows[r], c, u) {
      found := Some(r);
    } else {
      found := None;
    }
  }

  lemma MatchTakes(w: World, t: TaskId, found: Option<RowId>)
    requires HasPending(w, t) && w.polls[t].matched.None? && Finds(w, w.polls[t].connection, Head(w.polls[t]), found)
    ensures CanMatch(w, t, found) && t in AfterMatch(w, t, found).polls
    ensures found.Some? ==> AfterMatch(w, t, found).polls[t].matched.Some?
    ensures Enabled(w, MatchStatus(t, found)) && Next(w, MatchStatus(t, found)) == AfterMatch(w, t, found)
  {}

  /** The poll once it has worked through everything. */
  function Finished(p: Poll): Poll
    requires p.pending.Some?
  {
    p.(pending := Some([]), matched := None, watermark := Horizon(p))
  }

  function Left(p: Poll): nat
    requires p.pending.Some?
  {
    2 * |p.pending.value| + if p.matched.None? then 1 else 0
  }

  lemma ReadOnShrinks(p: Poll, q: Poll)
    requires p.pending.Some? && p.pending.value != []
    requires q == Advance(p) || (p.matched.None? && q.matched.Some? && q == p.(matched := q.matched))
    ensures q.pending.Some? && Left(q) < Left(p) && Finished(q) == Finished(p) && q.connection == p.connection
    ensures forall u :: u in q.pending.value ==> u in p.pending.value
  {}

  /** The poll works through what is pending; a status that is not among it stays as it is. */
  lemma Drain(origin: World, w: World, t: TaskId, u: Update) returns (v: World)
    requires Leads(origin, w) && Inv(w) && t in w.polls && w.polls[t].pending.Some?
    requires u !in w.polls[t].pending.value && !Handled(w, w.polls[t].connection, u)
    ensures Leads(origin, v) && Inv(v) && v.connections == w.connections && !Handled(v, w.polls[t].connection, u)
    ensures t in v.polls && v.polls[t] == Finished(w.polls[t])
    decreases Left(w.polls[t])
  {
    var p := w.polls[t];
    if p.pending.value == [] {
      PollIsOk(w, t);
      v := w;
    } else {
      hide *;
      HeadIsPending(w, t);
      var step := ReadOne(w, t, u);
      ReadOnShrinks(p, Next(w, step).polls[t]);
      StepKeepsInv(w, step);
      LeadsOn(origin, w, step);
      v := Drain(origin, Next(w, step), t, u);
    }
  }

  lemma HeadIsPending(w: World, t: TaskId)
    requires t in w.polls && w.polls[t].pending.Some? && w.polls[t].pending.value != []
    ensures HasPending(w, t) && Head(w.polls[t]) in w.polls[t].pending.value
  {}

  /** Every poll in progress crashes. */
  lemma DropPolls(origin: World, w: World) returns (v: World)
    requires Leads(origin, w)
    ensures Leads(origin, v) && v.polls == map[] && v.connections == w.connections
    ensures v.rows == w.rows && v.history == w.history && v.unmatched == w.unmatched
    decreases w.polls.Keys
  {
    if w.polls == map[] {
      v := w;
    } else {
      var t :| t in w.polls;
      var dropped := AfterDrop(w, t);
      LeadsOn(origin, w, Drop(t));
      assert dropped.polls.Keys == w.polls.Keys - {t};
      v := DropPolls(origin, dropped);
    }
  }

  lemma CommitLoses(w: World, t: TaskId, u: Update)
    requires CanCommit(w, t) && !Harmless(w.polls[t], u) && !Handled(w, w.polls[t].connection, u)
    requires w.polls[t].cold || w.connections[w.polls[t].connection].coldStart.Some?
    requires !BeforeStart(w.connections[w.polls[t].connection], u.occurredAt)
    ensures Lost(AfterCommit(w, t), w.polls[t].connection, u)
  {
    CommitAside(w, t);
    CommitStart(w, t, u.occurredAt);
    SameRecords(w, AfterCommit(w, t), w.polls[t].connection, u);
  }

  /** A fetched poll that misses `u` and reaches past it has only to finish. */
  lemma FetchedLoses(origin: World, w: World, t: TaskId, u: Update) returns (v: World)
    requires Leads(origin, w) && CursorInv(w) && t in w.polls && w.polls[t].pending.Some? && !Harmless(w.polls[t], u)
    requires !Handled(w, w.polls[t].connection, u)
    requires w.polls[t].connection in w.connections && !BeforeStart(w.connections[w.polls[t].connection], u.occurredAt)
    ensures Leads(origin, v) && Lost(v, w.polls[t].connection, u)
  {
    PollReaches(w, t);
    CursorHasInv(w);
    hide CursorInv, Inv, Handled, Leads, StreamOf, Published, Lost, BeforeStart;
    var drained := Drain(origin, w, t, u);
    assert CanCommit(drained, t);
    CommitLoses(drained, t, u);
    LeadsOn(origin, drained, CommitCursor(t));
    v := AfterCommit(drained, t);
  }

  lemma SameRecords(w: World, v: World, c: ConnectionId, u: Update)
    requires v.rows == w.rows && v.history == w.history && v.unmatched == w.unmatched
    ensures Handled(v, c, u) <==> Handled(w, c, u)
  {
    assert forall r :: RecordedOn(v, c, u, r) <==> RecordedOn(w, c, u, r);
  }

  lemma AnswerTo(stream: seq<Update>, since: Time) returns (updates: seq<Update>)
    ensures IsAnswer(stream, since, updates)
  {
    Sandbox.FilterIsAnAnswer(stream, since);
    updates := PdpSync.Sorted(Sandbox.After(stream, since));
  }

  /** A poll yet to be answered that starts at or past `u` misses it as soon as anything newer is published. */
  lemma UnfetchedLoses(w: World, t: TaskId, u: Update) returns (v: World)
    requires CursorInv(w) && t in w.polls && w.polls[t].pending.None? && !Harmless(w.polls[t], u)
    requires !Handled(w, w.polls[t].connection, u)
    requires w.polls[t].connection in w.connections && !BeforeStart(w.connections[w.polls[t].connection], u.occurredAt)
    ensures Leads(w, v) && Lost(v, w.polls[t].connection, u)
  {
    var c, provider := w.polls[t].connection, w.connections[w.polls[t].connection].provider;
    var newer := Update(0, DEPOSEE, w.polls[t].since + 1);
    var published := AfterPublish(w, provider, newer);
    var updates := AnswerTo(Stream(published, provider), w.polls[t].since);
    var fetched := AfterFetch(published, t, updates);
    AnswerMisses(Stream(w, provider), w.polls[t], newer, updates, u);
    SameRecords(w, fetched, c, u);
    hide *;
    LeadsToItself(w);
    PublishStep(w, provider, newer);
    LeadsOn(w, w, Publish(provider, newer));
    StepKeepsCursor(w, Publish(provider, newer));
    FetchStep(published, t, updates);
    LeadsOn(w, published, Fetch(t, updates));
    StepKeepsCursor(published, Fetch(t, updates));
    v := FetchedLoses(w, fetched, t, u);
  }

  lemma PublishStep(w: World, provider: Provider, u: Update)
    ensures Enabled(w, Publish(provider, u)) && Next(w, Publish(provider, u)) == AfterPublish(w, provider, u)
    ensures var v := AfterPublish(w, provider, u);
            && v.polls == w.polls && v.connections == w.connections
            && Stream(v, provider) == Stream(w, provider) + [u]
  {}

  lemma FetchStep(w: World, t: TaskId, updates: seq<Update>)
    requires t in w.polls && w.polls[t].pending.None? && w.polls[t].connection in w.connections
    requires IsAnswer(Stream(w, w.connections[w.polls[t].connection].provider), w.polls[t].since, updates)
    ensures Enabled(w, Fetch(t, updates)) && Next(w, Fetch(t, updates)) == AfterFetch(w, t, updates)
    ensures var v := AfterFetch(w, t, updates);
            t in v.polls && v.polls[t] == w.polls[t].(pending := Some(updates)) && v.connections == w.connections
  {
    hide IsAnswer;
  }

  lemma AnswerMisses(stream: seq<Update>, p: Poll, newer: Update, updates: seq<Update>, u: Update)
    requires p.pending.None? && !Harmless(p, u) && newer.occurredAt > p.since
    requires IsAnswer(stream + [newer], p.since, updates)
    ensures !Harmless(p.(pending := Some(updates)), u)
  {
    assert (stream + [newer])[|stream|] == newer;
    assert newer in updates;
    assert updates[|updates| - 1] in updates;
  }

  lemma ExposedLoses(w: World, c: ConnectionId, u: Update) returns (v: World)
    requires CursorInv(w) && c in w.connections && !Secure(w, c, u)
    ensures Leads(w, v) && Lost(v, c, u)
  {
    LeadsToItself(w);
    assert CursorOk(w, c);
    hide CursorInv, Handled, Leads, Harmless, Published, StreamOf;
    if !ShortOf(w.connections[c], u.occurredAt) {
      v := w;
    } else {
      var t :| t in w.polls && w.polls[t].connection == c && !Harmless(w.polls[t], u);
      if w.polls[t].pending.None? {
        v := UnfetchedLoses(w, t, u);
      } else {
        v := FetchedLoses(w, w, t, u);
      }
    }
  }

  // ---------------------------------------------------------------------- what is passed is never read

  /** The poll will never read a status as old as `t`. */
  predicate ReadsPast(p: Poll, t: Time) {
    && t <= p.since
    && (p.pending.Some? ==> forall k :: 0 <= k < |p.pending.value| ==> t < p.pending.value[k].occurredAt)
    && (p.watermark.Some? ==> t < p.watermark.value)
  }

  /** The cursor and every poll of `c` in progress are already at or past `t`. */
  ghost predicate Passed(w: World, c: ConnectionId, t: Time) {
    && c in w.connections
    && w.connections[c].statusCursor.Some?
    && t <= w.connections[c].statusCursor.value
    && (forall p :: p in w.polls && w.polls[p].connection == c ==> ReadsPast(w.polls[p], t))
  }

  lemma AsideStaysPassed(w: World, v: World, p: TaskId, c: ConnectionId, t: Time)
    requires Passed(w, c, t) && CursorsAside(w, v) && OtherPollsAside(w, v, p) && c in v.connections
    requires p in v.polls && v.polls[p].connection == c ==> ReadsPast(v.polls[p], t)
    ensures Passed(v, c, t)
  {
    hide ReadsPast;
  }

  lemma PassedPoll(w: World, c: ConnectionId, t: Time, p: TaskId)
    requires Passed(w, c, t)
    ensures c in w.connections
    ensures p in w.polls && w.polls[p].connection == c ==> ReadsPast(w.polls[p], t)
  {}

  lemma StartedReadsPast(w: World, p: TaskId, c: ConnectionId, now: Time, t: Time)
    requires Passed(w, c, t) && CanStartPoll(w, p, c)
    ensures ReadsPast(AfterStartPoll(w, p, c, now).polls[p], t)
  {}

  lemma FetchedReadsPast(w: World, p: TaskId, updates: seq<Update>, t: Time)
    requires CanFetch(w, p, updates) && ReadsPast(w.polls[p], t)
    ensures ReadsPast(AfterFetch(w, p, updates).polls[p], t)
  {
    forall u | u in updates ensures u.occurredAt > w.polls[p].since {}
  }

  lemma ReadOnReadsPast(w: World, v: World, p: TaskId, t: Time)
    requires ReadsOn(w, v, p) && ReadsPast(w.polls[p], t)
    ensures ReadsPast(v.polls[p], t)
  {
    hide Handled;
  }

  lemma PollingStaysPassed(w: World, step: Step, c: ConnectionId, t: Time)
    requires Passed(w, c, t) && Inv(w) && Enabled(w, step) && c in Next(w, step).connections
    requires step.StartPoll? || step.Fetch? || step.MatchStatus? || step.ApplyStatus?
    ensures Passed(Next(w, step), c, t)
  {
    hide *;
    var v, p := Next(w, step), step.task;
    PassedPoll(w, c, t, p);
    if step.StartPoll? {
      TakenStartPoll(w, step);
      StartPollAside(w, p, step.connection, step.now);
      if step.connection == c {
        StartedReadsPast(w, p, c, step.now, t);
      }
    } else if step.Fetch? {
      TakenFetch(w, step);
      FetchAside(w, p, step.updates);
      if w.polls[p].connection == c {
        FetchedReadsPast(w, p, step.updates, t);
      }
    } else {
      ReadingReadsOn(w, step);
      HasRead(w, v, p);
      if w.polls[p].connection == c {
        ReadOnReadsPast(w, v, p, t);
      }
    }
    AsideStaysPassed(w, v, p, c, t);
  }

  lemma CommitStaysPassed(w: World, p: TaskId, c: ConnectionId, t: Time)
    requires Passed(w, c, t) && CanCommit(w, p)
    ensures Passed(AfterCommit(w, p), c, t)
  {}

  lemma OtherStaysPassed(w: World, step: Step, c: ConnectionId, t: Time)
    requires Passed(w, c, t) && Enabled(w, step) && !MovesPolls(step) && c in Next(w, step).connections
    ensures Passed(Next(w, step), c, t)
  {
    OtherAside(w, step);
    hide Enabled, Next, MovesPolls, ReadsPast;
  }

  lemma StepStaysPassed(w: World, step: Step, c: ConnectionId, t: Time)
    requires Passed(w, c, t) && Inv(w) && Enabled(w, step)
    ensures Passed(Next(w, step), c, t)
  {
    hide *;
    PassedPoll(w, c, t, 0);
    StepKeepsInv(w, step);
    StreamGrows(w, Next(w, step), c);
    if step.CommitCursor? {
      TakenCommit(w, step.task);
      CommitStaysPassed(w, step.task, c, t);
    } else if step.StartPoll? || step.Fetch? || step.MatchStatus? || step.ApplyStatus? {
      PollingStaysPassed(w, step, c, t);
    } else {
      NotMoving(step);
      OtherStaysPassed(w, step, c, t);
    }
  }

  /** A status whose time the cursor and the polls in progress have passed is read in no continuation. */
  lemma {:induction false} LateStatusIsNeverRead(w: World, steps: seq<Step>, c: ConnectionId, u: Update, p: TaskId)
    requires Inv(w) && Passed(w, c, u.occurredAt) && Exec(w, steps).Some?
    ensures Passed(Exec(w, steps).value, c, u.occurredAt)
    ensures var v := Exec(w, steps).value;
            p in v.polls && v.polls[p].connection == c && v.polls[p].pending.Some? ==> u !in v.polls[p].pending.value
  {
    hide Inv, Try;
    if steps != [] {
      var before := steps[..|steps| - 1];
      LateStatusIsNeverRead(w, before, c, u, p);
      ExecKeepsInv(w, before);
      StepStaysPassed(Exec(w, before).value, steps[|steps| - 1], c, u.occurredAt);
    }
  }

  // ---------------------------------------------------------------------- the exact condition

  lemma SecureIsNeverLost(w: World, v: World, c: ConnectionId, u: Update)
    requires Inv(w) && c in w.connections && u in StreamOf(w, c) && Secure(w, c, u) && Leads(w, v)
    ensures !Lost(v, c, u)
  {
    hide Inv, Secure, Lost;
    var steps :| Exec(w, steps) == Some(v);
    ExecKeepsSecure(w, steps, c, u);
    SecureIsNotLost(v, c, u);
  }

  lemma ExposedIsLostForGood(w: World, c: ConnectionId, u: Update) returns (v: World)
    requires CursorInv(w) && c in w.connections && !Secure(w, c, u)
    ensures Leads(w, v) && Lost(v, c, u) && Passed(v, c, u.occurredAt)
  {
    hide CursorInv, Secure, Leads, Handled;
    var lost := ExposedLoses(w, c, u);
    v := DropPolls(w, lost);
    SameRecords(lost, v, c, u);
  }

  /**
   Exactly when a published status is safe with a connection: in no continuation does the cursor stand
   past it undealt with if and only if it has been dealt with, or is older than the connection's
   coverage, or the cursor and every poll in progress are short of it or about to read it. Otherwise
   some continuation loses it, and by `LateStatusIsNeverRead` for good.
   */
  lemma StatusIsKeptIff(w: World, c: ConnectionId, u: Update)
    requires Reachable(w) && c in w.connections && u in StreamOf(w, c)
    ensures Secure(w, c, u) <==> forall v :: Leads(w, v) ==> !Lost(v, c, u)
    ensures !Secure(w, c, u) ==> exists v :: Leads(w, v) && Lost(v, c, u) && Passed(v, c, u.occurredAt)
  {
    ReachableCursor(w);
    CursorHasInv(w);
    hide *;
    if Secure(w, c, u) {
      forall v | Leads(w, v) ensures !Lost(v, c, u) {
        SecureIsNeverLost(w, v, c, u);
      }
    } else {
      var v := ExposedIsLostForGood(w, c, u);
    }
  }

  /** The poll ends short of `t`, still has `t` to ask for, or starts the connection's coverage at or after it. */
  predicate ClearOf(p: Poll, t: Time) {
    || (p.cold && t <= p.since)
    || match p.pending
       case None => p.since < t
       case Some(_) => Horizon(p).None? || Horizon(p).value < t
  }

  /** The moment `t` still lies ahead of the cursor of `c` and of every poll in progress. */
  ghost predicate StillAhead(w: World, c: ConnectionId, t: Time)
    requires c in w.connections
  {
    || BeforeStart(w.connections[c], t)
    || (&& ShortOf(w.connections[c], t)
        && forall p :: p in w.polls && w.polls[p].connection == c ==> ClearOf(w.polls[p], t))
  }

  lemma NewIsSecureIff(w: World, c: ConnectionId, u: Update)
    requires CursorInv(w) && c in w.connections && u !in StreamOf(w, c) && !Handled(w, c, u)
    ensures var v := AfterPublish(w, w.connections[c].provider, u);
            c in v.connections && u in StreamOf(v, c) && (Secure(v, c, u) <==> StillAhead(w, c, u.occurredAt))
  {
    var v := AfterPublish(w, w.connections[c].provider, u);
    PublishStep(w, w.connections[c].provider, u);
    SameRecords(w, v, c, u);
    forall p | p in w.polls && w.polls[p].connection == c
      ensures Harmless(w.polls[p], u) <==> ClearOf(w.polls[p], u.occurredAt)
    {
      PollReaches(w, p);
    }
    hide CursorInv, Handled, Harmless, ClearOf, AfterPublish, Inv;
  }

  /**
   What a platform has to keep to: a status newly published is safe with a connection exactly when its
   timestamp still lies ahead of the connection's cursor and of every poll in progress.
   */
  lemma PublishedIsKeptIff(w: World, c: ConnectionId, u: Update)
    requires Reachable(w) && c in w.connections && u !in StreamOf(w, c) && !Handled(w, c, u)
    ensures var v := AfterPublish(w, w.connections[c].provider, u);
            StillAhead(w, c, u.occurredAt) <==> forall x :: Leads(v, x) ==> !Lost(x, c, u)
  {
    var provider := w.connections[c].provider;
    ReachableCursor(w);
    NewIsSecureIff(w, c, u);
    PublishStep(w, provider, u);
    hide *;
    ReachableNext(w, Publish(provider, u));
    StatusIsKeptIff(AfterPublish(w, provider, u), c, u);
  }

  // ---------------------------------------------------------------------- ordered publication is enough

  /** Published with a timestamp later than everything the platform published before it. */
  ghost predicate InOrder(stream: seq<Update>, k: nat)
    requires k < |stream|
  {
    forall j :: 0 <= j < k ==> stream[j].occurredAt < stream[k].occurredAt
  }

  ghost predicate InOrderSecure(w: World) {
    forall c, k: nat :: c in w.connections && k < |StreamOf(w, c)| && InOrder(StreamOf(w, c), k) ==>
      Secure(w, c, StreamOf(w, c)[k])
  }

  lemma NewestIsSecure(w: World, c: ConnectionId, u: Update)
    requires CursorInv(w) && c in w.connections && forall x :: x in StreamOf(w, c) ==> x.occurredAt < u.occurredAt
    ensures Ahead(w, c, u)
  {
    assert CursorOk(w, c);
    forall p | p in w.polls && w.polls[p].connection == c ensures Harmless(w.polls[p], u) {
      PollReaches(w, p);
    }
    hide CursorInv, Harmless, StreamOf;
  }

  /** A status later than all before it lies ahead of every cursor and every horizon. */
  lemma NewestStaysSecure(w: World, provider: Provider, u: Update, c: ConnectionId)
    requires CursorInv(w) && c in w.connections && w.connections[c].provider == provider
    requires forall x :: x in StreamOf(w, c) ==> x.occurredAt < u.occurredAt
    ensures c in AfterPublish(w, provider, u).connections && Secure(AfterPublish(w, provider, u), c, u)
  {
    hide *;
    NewestIsSecure(w, c, u);
    PublishStep(w, provider, u);
    AheadElsewhere(w, AfterPublish(w, provider, u), c, u);
  }

  lemma AheadElsewhere(w: World, v: World, c: ConnectionId, u: Update)
    requires c in w.connections && v.connections == w.connections && v.polls == w.polls && Ahead(w, c, u)
    ensures Secure(v, c, u)
  {}

  lemma ConnectedIsSecure(w: World, v: World, c: ConnectionId, u: Update)
    requires CursorInv(w) && c in v.connections && c !in w.connections && CursorsAside(w, v)
    requires forall q :: q in v.polls ==> q in w.polls && v.polls[q] == w.polls[q]
    ensures Secure(v, c, u)
  {
    forall q | q in v.polls ensures v.polls[q].connection != c {
      PollReaches(w, q);
    }
  }

  lemma PrefixInOrder(stream: seq<Update>, longer: seq<Update>, k: nat)
    requires stream <= longer && k < |stream| && InOrder(longer, k)
    ensures InOrder(stream, k) && longer[k] == stream[k]
  {
    assert forall j :: 0 <= j <= k ==> stream[j] == longer[j];
  }

  lemma OldKeepsInOrder(w: World, step: Step, c: ConnectionId, k: nat)
    requires CursorInv(w) && InOrderSecure(w) && Enabled(w, step) && c in w.connections && k < |StreamOf(w, c)|
    requires c in Next(w, step).connections && k < |StreamOf(Next(w, step), c)| && InOrder(StreamOf(Next(w, step), c), k)
    ensures Secure(Next(w, step), c, StreamOf(Next(w, step), c)[k])
  {
    CursorHasInv(w);
    hide Inv, Extends, StreamOf, Secure, Enabled, Next, CursorInv, InOrder;
    StepKeepsInv(w, step);
    StreamGrows(w, Next(w, step), c);
    PrefixInOrder(StreamOf(w, c), StreamOf(Next(w, step), c), k);
    StepKeepsSecure(w, step, c, StreamOf(w, c)[k]);
  }

  /** A stream grows by nothing but a publication, and by one status at a time. */
  lemma OnlyPublishGrows(w: World, step: Step, provider: Provider)
    requires Inv(w) && Enabled(w, step)
    ensures Stream(Next(w, step), provider) ==
              Stream(w, provider) + if step.Publish? && step.provider == provider then [step.update] else []
  {
    if step.Publish? {
      PublishStep(w, step.provider, step.update);
    } else {
      hide Enabled, Next, Inv;
      if MovesPolls(step) {
        PollsPublishNothing(w, step);
      } else {
        OtherAside(w, step);
      }
    }
  }

  lemma NewKeepsInOrder(w: World, step: Step, c: ConnectionId, k: nat)
    requires CursorInv(w) && Enabled(w, step) && c in w.connections && c in Next(w, step).connections
    requires w.connections[c].provider == Next(w, step).connections[c].provider
    requires |StreamOf(w, c)| <= k < |StreamOf(Next(w, step), c)| && InOrder(StreamOf(Next(w, step), c), k)
    ensures Secure(Next(w, step), c, StreamOf(Next(w, step), c)[k])
  {
    var provider := w.connections[c].provider;
    CursorHasInv(w);
    OnlyPublishGrows(w, step, provider);
    hide Inv, Enabled, Next, CursorInv, Secure;
    assert step.Publish? && step.provider == provider && k == |StreamOf(w, c)|;
    PublishStep(w, provider, step.update);
    forall x | x in StreamOf(w, c) ensures x.occurredAt < step.update.occurredAt {
      var j :| 0 <= j < k && StreamOf(w, c)[j] == x;
      assert (StreamOf(w, c) + [step.update])[j] == x;
    }
    NewestStaysSecure(w, provider, step.update, c);
  }

  lemma StepKeepsInOrder(w: World, step: Step)
    requires CursorInv(w) && InOrderSecure(w) && Enabled(w, step)
    ensures InOrderSecure(Next(w, step))
  {
    var v := Next(w, step);
    forall c, k: nat | c in v.connections && k < |StreamOf(v, c)| && InOrder(StreamOf(v, c), k)
      ensures Secure(v, c, StreamOf(v, c)[k])
    {
      hide *;
      CursorHasInv(w);
      StepKeepsInv(w, step);
      if c in w.connections {
        SameProvider(w, v, c);
        if k < |StreamOf(w, c)| {
          OldKeepsInOrder(w, step, c, k);
        } else {
          NewKeepsInOrder(w, step, c, k);
        }
      } else {
        OnlySavingConnects(w, step, c);
        OtherAside(w, step);
        ConnectedIsSecure(w, v, c, StreamOf(v, c)[k]);
      }
    }
  }

  lemma SameProvider(w: World, v: World, c: ConnectionId)
    requires Extends(w, v) && c in w.connections
    ensures c in v.connections && v.connections[c].provider == w.connections[c].provider
  {}

  lemma OnlySavingConnects(w: World, step: Step, c: ConnectionId)
    requires Inv(w) && Enabled(w, step) && c in Next(w, step).connections && c !in w.connections
    ensures !MovesPolls(step)
  {
    hide Enabled, Next, Inv;
    if MovesPolls(step) {
      PollsPublishNothing(w, step);
    }
  }

  lemma {:induction false} ExecKeepsInOrder(w: World, steps: seq<Step>)
    requires CursorInv(w) && InOrderSecure(w) && Exec(w, steps).Some?
    ensures InOrderSecure(Exec(w, steps).value)
  {
    hide CursorInv, InOrderSecure, Try;
    if steps != [] {
      var before := steps[..|steps| - 1];
      ExecKeepsInOrder(w, before);
      ExecKeepsCursor(w, before);
      StepKeepsInOrder(Exec(w, before).value, steps[|steps| - 1]);
    }
  }

  /**
   In every reachable world, each in-order status after the cold-start point and at or before a
   connection's cursor is in its invoice's history or was logged as matching no transmission.
   */
  lemma CursorNeverSkips(w: World, c: ConnectionId, k: nat)
    requires Reachable(w) && c in w.connections && w.connections[c].statusCursor.Some?
    requires k < |StreamOf(w, c)| && InOrder(StreamOf(w, c), k)
    ensures w.connections[c].coldStart.Some?
    ensures w.connections[c].coldStart.value < StreamOf(w, c)[k].occurredAt <= w.connections[c].statusCursor.value
            ==> Handled(w, c, StreamOf(w, c)[k])
  {
    ReachableCursor(w);
    var steps :| Exec(INITIAL, steps) == Some(w);
    ExecKeepsInOrder(INITIAL, steps);
    assert CursorOk(w, c);
    hide CursorInv, Handled, InOrder, Reachable, Exec;
    assert Secure(w, c, StreamOf(w, c)[k]);
  }
}
