/** Status polling as the service runs it: one uninterrupted poll, proved against what it may change. */
module PdpSync {
  import opened Prelude
  import opened Lifecycle
  import opened Pdp
  import opened PdpSafety
  import opened TransmissionSpec

  // ---------------------------------------------------------------------- sorting

  function Placed(u: Update, sorted: seq<Update>): seq<Update> {
    if sorted == [] then [u]
    else if u.occurredAt <= sorted[0].occurredAt then [u] + sorted
    else [sorted[0]] + Placed(u, sorted[1..])
  }

  /** Oldest first; equal times keep the order they came in. */
  function Sorted(updates: seq<Update>): seq<Update> {
    if updates == [] then [] else Placed(updates[0], Sorted(updates[1..]))
  }

  lemma {:induction false} PlacedKeepsAll(u: Update, sorted: seq<Update>)
    ensures multiset(Placed(u, sorted)) == multiset(sorted) + multiset{u}
    ensures forall x :: x in Placed(u, sorted) <==> x in sorted || x == u
  {
    if sorted != [] && u.occurredAt > sorted[0].occurredAt {
      PlacedKeepsAll(u, sorted[1..]);
      assert sorted == [sorted[0]] + sorted[1..];
    }
  }

  lemma {:induction false} PlacedIsSorted(u: Update, sorted: seq<Update>)
    requires SortedByTime(sorted)
    ensures SortedByTime(Placed(u, sorted))
  {
    if sorted != [] && u.occurredAt > sorted[0].occurredAt {
      var rest := Placed(u, sorted[1..]);
      PlacedIsSorted(u, sorted[1..]);
      PlacedKeepsAll(u, sorted[1..]);
      assert forall x :: x in rest ==> sorted[0].occurredAt <= x.occurredAt;
      FirstBeforeRest(sorted[0], rest);
    }
  }

  lemma FirstBeforeRest(first: Update, rest: seq<Update>)
    requires SortedByTime(rest) && forall x :: x in rest ==> first.occurredAt <= x.occurredAt
    ensures SortedByTime([first] + rest)
  {}

  lemma {:induction false} SortedIsSorted(updates: seq<Update>)
    ensures SortedByTime(Sorted(updates)) && multiset(Sorted(updates)) == multiset(updates)
    ensures forall x :: x in Sorted(updates) <==> x in updates
  {
    if updates != [] {
      SortedIsSorted(updates[1..]);
      PlacedIsSorted(updates[0], Sorted(updates[1..]));
      PlacedKeepsAll(updates[0], Sorted(updates[1..]));
      assert updates == [updates[0]] + updates[1..];
    }
  }

  // ---------------------------------------------------------------------- what one poll changes

  datatype StatusPollReport = StatusPollReport(fetched: nat, recorded: nat, unmatched: nat)

  ghost predicate IsMatched(w: World, c: ConnectionId, u: Update) {
    exists r :: r in w.rows && Matches(w.rows[r], c, u)
  }

  function StatusFor(row: Row, u: Update): Status {
    Status(row.invoice, u.code, u.occurredAt)
  }

  /** The codes among `updates` that name row `r` and were not on record. */
  ghost function NewCodes(w: World, c: ConnectionId, updates: seq<Update>, r: RowId): set<Code>
    requires r in w.rows
  {
    set u | u in updates && Matches(w.rows[r], c, u) && StatusFor(w.rows[r], u) !in w.history :: u.code
  }

  ghost predicate Reports(w: World, c: ConnectionId, updates: seq<Update>, s: Status) {
    exists r, u :: r in w.rows && u in updates && Matches(w.rows[r], c, u) && s == StatusFor(w.rows[r], u)
  }

  predicate Rejecting(code: Code) {
    Implied(code) == Some(REJECTED)
  }

  /** Newly delivered closes a sent row, newly rejected closes a queued one. */
  ghost function Closed(state: RowState, codes: set<Code>): RowState {
    if state == SENT && SaysDelivered(codes) then ACKNOWLEDGED
    else if state == PENDING && SaysRejected(codes) then RowState.FAILED
    else state
  }

  /** The updates that name no row. */
  ghost function Orphans(w: World, c: ConnectionId, updates: seq<Update>): seq<Update> {
    if updates == [] then []
    else
      var front, last := updates[..|updates| - 1], updates[|updates| - 1];
      if IsMatched(w, c, last) then Orphans(w, c, front) else Orphans(w, c, front) + [last]
  }

  /** Everything a row and its invoice owe to the updates that name the row. */
  ghost predicate RowFollows(w: World, v: World, c: ConnectionId, updates: seq<Update>, r: RowId)
    requires r in w.rows
  {
    var codes, i := NewCodes(w, c, updates, r), w.rows[r].invoice;
    && r in v.rows
    && v.rows[r] == w.rows[r].(state := Closed(w.rows[r].state, codes))
    && i in w.invoices && i in v.invoices
    && SameInvoice(w.invoices[i], v.invoices[i])
    && v.invoices[i].state == StateAfter(w.invoices[i].state, codes)
  }

  /** `v` is `w` after the poll of `c` has worked through `updates`; the cursor is still to be written. */
  ghost predicate Applied(w: World, v: World, c: ConnectionId, updates: seq<Update>) {
    && v.rows.Keys == w.rows.Keys && v.invoices.Keys == w.invoices.Keys
    && (forall r :: r in w.rows ==> RowFollows(w, v, c, updates, r))
    && (forall i :: i in w.invoices && (forall r :: r in w.rows ==> w.rows[r].invoice != i) ==> v.invoices[i] == w.invoices[i])
    && (forall s :: s in v.history <==> s in w.history || Reports(w, c, updates, s))
    && (forall d, u :: (d, u) in v.unmatched <==> (d, u) in w.unmatched || (d == c && u in updates && !IsMatched(w, c, u)))
    && v == w.(rows := v.rows, invoices := v.invoices, history := v.history, unmatched := v.unmatched)
  }

  lemma AppliedNone(w: World, c: ConnectionId)
    requires Inv(w)
    ensures Applied(w, w, c, [])
  {
    forall r | r in w.rows ensures RowFollows(w, w, c, [], r) {
      RowIsOk(w, r);
    }
    hide Inv, RowFollows;
  }

  lemma CodesGrow(w: World, c: ConnectionId, done: seq<Update>, u: Update, r: RowId)
    requires r in w.rows
    ensures NewCodes(w, c, done + [u], r) == NewCodes(w, c, done, r) +
              (if Matches(w.rows[r], c, u) && StatusFor(w.rows[r], u) !in w.history then {u.code} else {})
  {
    assert forall x :: x in done + [u] <==> x in done || x == u;
  }

  lemma RowStaysPut(w: World, v: World, v': World, c: ConnectionId, done: seq<Update>, u: Update, r: RowId)
    requires r in w.rows && RowFollows(w, v, c, done, r)
    requires NewCodes(w, c, done + [u], r) == NewCodes(w, c, done, r)
    requires r in v'.rows && v'.rows[r] == v.rows[r]
    requires w.rows[r].invoice in v'.invoices && v'.invoices[w.rows[r].invoice] == v.invoices[w.rows[r].invoice]
    ensures RowFollows(w, v', c, done + [u], r)
  {}

  lemma ReportsGrow(w: World, c: ConnectionId, done: seq<Update>, u: Update, s: Status)
    ensures Reports(w, c, done + [u], s) <==>
              Reports(w, c, done, s) || exists r :: r in w.rows && Matches(w.rows[r], c, u) && s == StatusFor(w.rows[r], u)
  {
    assert forall x :: x in done + [u] <==> x in done || x == u;
    if r :| r in w.rows && Matches(w.rows[r], c, u) && s == StatusFor(w.rows[r], u) {
      assert u in done + [u];
    }
  }

  lemma AppliedUnmatched(w: World, v: World, c: ConnectionId, done: seq<Update>, u: Update)
    requires Applied(w, v, c, done) && !IsMatched(w, c, u)
    ensures Applied(w, v.(unmatched := v.unmatched + {(c, u)}), c, done + [u])
  {
    hide RowFollows, Reports, IsMatched;
    UnmatchedRows(w, v, c, done, u);
    UnmatchedReports(w, c, done, u);
    assert forall x :: x in done + [u] <==> x in done || x == u;
  }

  lemma UnmatchedRows(w: World, v: World, c: ConnectionId, done: seq<Update>, u: Update)
    requires Applied(w, v, c, done) && !IsMatched(w, c, u)
    ensures forall r :: r in w.rows ==> RowFollows(w, v.(unmatched := v.unmatched + {(c, u)}), c, done + [u], r)
  {
    hide Reports, NewCodes;
    var v' := v.(unmatched := v.unmatched + {(c, u)});
    forall r | r in w.rows ensures RowFollows(w, v', c, done + [u], r) {
      CodesGrow(w, c, done, u, r);
      RowStaysPut(w, v, v', c, done, u, r);
    }
  }

  lemma UnmatchedReports(w: World, c: ConnectionId, done: seq<Update>, u: Update)
    requires !IsMatched(w, c, u)
    ensures forall s :: Reports(w, c, done + [u], s) <==> Reports(w, c, done, s)
  {
    hide Reports;
    forall s ensures Reports(w, c, done + [u], s) <==> Reports(w, c, done, s) {
      ReportsGrow(w, c, done, u, s);
    }
  }

  /** Only one row of the connection carries the identifier, and only that row carries its invoice. */
  lemma MatchIsUnique(w: World, c: ConnectionId, u: Update, r: RowId, q: RowId)
    requires Inv(w) && r in w.rows && q in w.rows && Matches(w.rows[r], c, u)
    requires Matches(w.rows[q], c, u) || w.rows[q].invoice == w.rows[r].invoice
    ensures q == r
  {
    RowIsOk(w, r);
    RowIsOk(w, q);
  }

  lemma ReportsMatched(w: World, c: ConnectionId, done: seq<Update>, u: Update, r: RowId)
    requires Inv(w) && r in w.rows && Matches(w.rows[r], c, u)
    ensures IsMatched(w, c, u)
    ensures forall s :: Reports(w, c, done + [u], s) <==> Reports(w, c, done, s) || s == StatusFor(w.rows[r], u)
  {
    forall s ensures Reports(w, c, done + [u], s) <==> Reports(w, c, done, s) || s == StatusFor(w.rows[r], u) {
      ReportsGrow(w, c, done, u, s);
      if q :| q in w.rows && Matches(w.rows[q], c, u) && s == StatusFor(w.rows[q], u) {
        MatchIsUnique(w, c, u, r, q);
      }
    }
  }

  /** A status already on record changes nothing. */
  lemma AppliedSeen(w: World, v: World, c: ConnectionId, done: seq<Update>, u: Update, r: RowId)
    requires Inv(w) && Applied(w, v, c, done)
    requires r in w.rows && Matches(w.rows[r], c, u) && StatusFor(w.rows[r], u) in v.history
    ensures Applied(w, v, c, done + [u])
  {
    hide RowFollows, Reports, Inv, IsMatched, Matches, StatusFor;
    SeenRows(w, v, c, done, u, r);
    ReportsMatched(w, c, done, u, r);
    assert forall x :: x in done + [u] <==> x in done || x == u;
  }

  lemma SeenRows(w: World, v: World, c: ConnectionId, done: seq<Update>, u: Update, r: RowId)
    requires Inv(w) && Applied(w, v, c, done)
    requires r in w.rows && Matches(w.rows[r], c, u) && StatusFor(w.rows[r], u) in v.history
    ensures forall q :: q in w.rows ==> RowFollows(w, v, c, done + [u], q)
  {
    hide Inv, Reports, NewCodes;
    forall q | q in w.rows ensures RowFollows(w, v, c, done + [u], q) {
      SeenCodes(w, v, c, done, u, r, q);
      RowStaysPut(w, v, v, c, done, u, q);
    }
  }

  lemma SeenCodes(w: World, v: World, c: ConnectionId, done: seq<Update>, u: Update, r: RowId, q: RowId)
    requires Inv(w) && Applied(w, v, c, done)
    requires r in w.rows && Matches(w.rows[r], c, u) && StatusFor(w.rows[r], u) in v.history && q in w.rows
    ensures NewCodes(w, c, done + [u], q) == NewCodes(w, c, done, q)
  {
    hide Inv, RowFollows;
    CodesGrow(w, c, done, u, q);
    if Matches(w.rows[q], c, u) && StatusFor(w.rows[q], u) !in w.history {
      MatchIsUnique(w, c, u, r, q);
      assert Reports(w, c, done, StatusFor(w.rows[r], u));
      var p, x :| p in w.rows && x in done && Matches(w.rows[p], c, x) && StatusFor(w.rows[r], u) == StatusFor(w.rows[p], x);
      MatchIsUnique(w, c, u, r, p);
    }
  }

  function AppliedState(state: RowState, code: Code): RowState {
    if Acknowledging(code) && state == SENT then ACKNOWLEDGED
    else if Rejecting(code) && state == PENDING then RowState.FAILED
    else state
  }

  /** `v` after one status reached row `r` for the first time. */
  ghost function Recorded(v: World, r: RowId, u: Update): World
    requires r in v.rows && v.rows[r].invoice in v.invoices
  {
    var row := v.rows[r];
    var invoice := v.invoices[row.invoice];
    v.(history := v.history + {StatusFor(row, u)},
       invoices := v.invoices[row.invoice := invoice.(state := Advanced(invoice.state, u.code))],
       rows := v.rows[r := row.(state := AppliedState(row.state, u.code))])
  }

  lemma RowMoves(w: World, v: World, c: ConnectionId, done: seq<Update>, u: Update, r: RowId)
    requires r in w.rows && RowFollows(w, v, c, done, r) && Matches(w.rows[r], c, u) && StatusFor(w.rows[r], u) !in w.history
    ensures RowFollows(w, Recorded(v, r, u), c, done + [u], r)
  {
    CodesGrow(w, c, done, u, r);
    var codes, i := NewCodes(w, c, done, r), w.rows[r].invoice;
    StateAfterGrows(w.invoices[i].state, codes, u.code);
    ClosedGrows(w.rows[r].state, codes, u.code);
    hide NewCodes, Closed, AppliedState, StateAfter, Advanced, StatusFor;
  }

  lemma ClosedGrows(state: RowState, codes: set<Code>, code: Code)
    ensures Closed(state, codes + {code}) == AppliedState(Closed(state, codes), code)
  {
    assert Rejecting(code) <==> code == REJETEE || code == REFUSEE;
  }

  /** A status seen for the first time moves exactly its row, its invoice and the history. */
  lemma AppliedNew(w: World, v: World, c: ConnectionId, done: seq<Update>, u: Update, r: RowId)
    requires Inv(w) && Applied(w, v, c, done)
    requires r in w.rows && Matches(w.rows[r], c, u) && StatusFor(w.rows[r], u) !in v.history
    ensures r in v.rows && v.rows[r].invoice in v.invoices
    ensures Applied(w, Recorded(v, r, u), c, done + [u])
  {
    hide RowFollows, Reports, Inv, IsMatched, Matches, StatusFor, Recorded;
    NewRows(w, v, c, done, u, r);
    ReportsMatched(w, c, done, u, r);
    RecordedFrame(w, v, c, done, u, r);
    assert forall x :: x in done + [u] <==> x in done || x == u;
    var v' := Recorded(v, r, u);
    forall i | i in w.invoices && (forall q :: q in w.rows ==> w.rows[q].invoice != i) ensures v'.invoices[i] == w.invoices[i] {
      assert w.rows[r].invoice != i;
    }
  }

  lemma NewRows(w: World, v: World, c: ConnectionId, done: seq<Update>, u: Update, r: RowId)
    requires Inv(w) && Applied(w, v, c, done)
    requires r in w.rows && Matches(w.rows[r], c, u) && StatusFor(w.rows[r], u) !in v.history
    ensures RowFollows(w, v, c, done, r) && r in v.rows && v.rows[r].invoice in v.invoices
    ensures forall q :: q in w.rows ==> RowFollows(w, Recorded(v, r, u), c, done + [u], q)
  {
    hide Inv, Reports, NewCodes, Matches, Recorded;
    forall q | q in w.rows ensures RowFollows(w, Recorded(v, r, u), c, done + [u], q) {
      if q == r {
        RowMoves(w, v, c, done, u, r);
      } else {
        OtherRowStays(w, v, c, done, u, r, q);
      }
    }
  }

  lemma RecordedFrame(w: World, v: World, c: ConnectionId, done: seq<Update>, u: Update, r: RowId)
    requires r in w.rows && RowFollows(w, v, c, done, r) && v.rows.Keys == w.rows.Keys && v.invoices.Keys == w.invoices.Keys
    requires v == w.(rows := v.rows, invoices := v.invoices, history := v.history, unmatched := v.unmatched)
    ensures var v' := Recorded(v, r, u);
      && v'.rows.Keys == w.rows.Keys && v'.invoices.Keys == w.invoices.Keys
      && v'.unmatched == v.unmatched && v'.history == v.history + {StatusFor(w.rows[r], u)}
      && (forall i :: i in v.invoices && i != w.rows[r].invoice ==> v'.invoices[i] == v.invoices[i])
      && v' == w.(rows := v'.rows, invoices := v'.invoices, history := v'.history, unmatched := v'.unmatched)
  {
    hide Closed, AppliedState, Advanced;
  }

  lemma OtherRowStays(w: World, v: World, c: ConnectionId, done: seq<Update>, u: Update, r: RowId, q: RowId)
    requires Inv(w) && r in w.rows && q in w.rows && q != r && Matches(w.rows[r], c, u)
    requires RowFollows(w, v, c, done, r) && RowFollows(w, v, c, done, q)
    ensures RowFollows(w, Recorded(v, r, u), c, done + [u], q)
  {
    if Matches(w.rows[q], c, u) || w.rows[q].invoice == w.rows[r].invoice {
      MatchIsUnique(w, c, u, r, q);
    }
    RecordedElsewhere(v, r, u);
    CodesGrow(w, c, done, u, q);
    hide Inv, NewCodes, Recorded;
    RowStaysPut(w, v, Recorded(v, r, u), c, done, u, q);
  }

  lemma RecordedElsewhere(v: World, r: RowId, u: Update)
    requires r in v.rows && v.rows[r].invoice in v.invoices
    ensures var v' := Recorded(v, r, u);
            && (forall q :: q in v.rows && q != r ==> q in v'.rows && v'.rows[q] == v.rows[q])
            && (forall i :: i in v.invoices && i != v.rows[r].invoice ==> i in v'.invoices && v'.invoices[i] == v.invoices[i])
  {
    hide Advanced, AppliedState;
  }

  /** Identities do not move during a poll, so neither does what a status names. */
  lemma SameMatches(w: World, v: World, c: ConnectionId, done: seq<Update>, u: Update)
    requires Applied(w, v, c, done)
    ensures IsMatched(v, c, u) <==> IsMatched(w, c, u)
    ensures forall r :: r in v.rows && Matches(v.rows[r], c, u) ==>
              && r in w.rows && Matches(w.rows[r], c, u)
              && v.rows[r].invoice in v.invoices
              && StatusFor(v.rows[r], u) == StatusFor(w.rows[r], u)
  {
    hide NewCodes, Closed, StateAfter;
    forall r | r in w.rows ensures r in v.rows && (Matches(v.rows[r], c, u) <==> Matches(w.rows[r], c, u)) {
      assert RowFollows(w, v, c, done, r);
    }
    forall r | r in v.rows && Matches(v.rows[r], c, u)
      ensures v.rows[r].invoice in v.invoices && StatusFor(v.rows[r], u) == StatusFor(w.rows[r], u)
    {
      assert RowFollows(w, v, c, done, r);
    }
  }

  // ---------------------------------------------------------------------- the protocol steps of one poll

  /** The world as the protocol sees it while poll `t` is under way. */
  ghost function Midway(v: World, t: TaskId, p: Poll): World {
    v.(polls := v.polls[t := p])
  }

  ghost predicate AtWork(v: World, t: TaskId, p: Poll) {
    && t !in v.polls
    && p.pending.Some? && p.pending.value != []
    && p.matched.None?
  }

  lemma TracedOrphan(v: World, trace: seq<Step>, t: TaskId, p: Poll)
    requires Exec(INITIAL, trace) == Some(Midway(v, t, p)) && AtWork(v, t, p) && !IsMatched(v, p.connection, Head(p))
    ensures Exec(INITIAL, trace + [MatchStatus(t, None)])
            == Some(Midway(v.(unmatched := v.unmatched + {(p.connection, Head(p))}), t, Advance(p)))
  {
    hide Exec;
    Traced(Midway(v, t, p), trace, MatchStatus(t, None));
    assert AfterMatch(Midway(v, t, p), t, None) == Midway(v.(unmatched := v.unmatched + {(p.connection, Head(p))}), t, Advance(p));
  }

  lemma MatchedStep(v: World, t: TaskId, p: Poll, r: RowId)
    requires AtWork(v, t, p) && r in v.rows && Matches(v.rows[r], p.connection, Head(p)) && v.rows[r].invoice in v.invoices
    ensures CanMatch(Midway(v, t, p), t, Some(r))
    ensures AfterMatch(Midway(v, t, p), t, Some(r)) == Midway(v, t, p.(matched := Some(Match(r, v.rows[r].invoice, v.rows[r].state))))
  {}

  lemma AppliedRowMoves(row: Row, code: Code)
    ensures AppliedRow(row, row.state, code) == row.(state := AppliedState(row.state, code))
  {}

  lemma NewStatusStep(v: World, q: World, t: TaskId, r: RowId, u: Update)
    requires r in v.rows && v.rows[r].invoice in v.invoices && q == v.(polls := q.polls) && CanApply(q, t)
    requires q.polls[t].matched == Some(Match(r, v.rows[r].invoice, v.rows[r].state)) && Head(q.polls[t]) == u
    ensures AfterNewStatus(q, t) == Recorded(v, r, u).(polls := q.polls[t := Advance(q.polls[t])])
  {
    hide Advanced, AppliedRow, AppliedState, Head, Advance;
    AppliedRowMoves(v.rows[r], u.code);
  }

  lemma AppliedStep(v: World, t: TaskId, p: Poll, r: RowId)
    requires AtWork(v, t, p) && r in v.rows && v.rows[r].invoice in v.invoices
    ensures var q := Midway(v, t, p.(matched := Some(Match(r, v.rows[r].invoice, v.rows[r].state))));
      && CanApply(q, t)
      && AfterApply(q, t) ==
           Midway(if StatusFor(v.rows[r], Head(p)) in v.history then v else Recorded(v, r, Head(p)), t, Advance(p))
  {
    hide Recorded, AfterNewStatus;
    var p' := p.(matched := Some(Match(r, v.rows[r].invoice, v.rows[r].state)));
    var q := Midway(v, t, p');
    assert CanApply(q, t) && Head(p') == Head(p) && Advance(p') == Advance(p);
    assert ReportedStatus(q, t) == StatusFor(v.rows[r], Head(p));
    assert q.polls[t := Advance(p')] == v.polls[t := Advance(p)];
    hide Head, Advance, CanApply, ReportedStatus, StatusFor;
    if StatusFor(v.rows[r], Head(p)) !in v.history {
      NewStatusStep(v, q, t, r, Head(p));
      RecordedPolls(v, r, Head(p));
    }
  }

  lemma RecordedPolls(v: World, r: RowId, u: Update)
    requires r in v.rows && v.rows[r].invoice in v.invoices
    ensures Recorded(v, r, u).polls == v.polls
  {}

  lemma TracedStatus(v: World, trace: seq<Step>, t: TaskId, p: Poll, r: RowId)
    requires Exec(INITIAL, trace) == Some(Midway(v, t, p)) && AtWork(v, t, p)
    requires r in v.rows && Matches(v.rows[r], p.connection, Head(p)) && v.rows[r].invoice in v.invoices
    ensures Exec(INITIAL, trace + [MatchStatus(t, Some(r))] + [Step.ApplyStatus(t)])
            == Some(Midway(if StatusFor(v.rows[r], Head(p)) in v.history then v else Recorded(v, r, Head(p)), t, Advance(p)))
  {
    MatchedStep(v, t, p, r);
    AppliedStep(v, t, p, r);
    hide Exec, CanMatch, AfterMatch, CanApply, AfterApply, Recorded, Advance;
    var matched := AfterMatch(Midway(v, t, p), t, Some(r));
    Traced(Midway(v, t, p), trace, MatchStatus(t, Some(r)));
    Traced(matched, trace + [MatchStatus(t, Some(r))], ApplyStatus(t));
  }

  // ---------------------------------------------------------------------- the service

  /** What a platform answers for `since`, in any order. */
  ghost predicate IsFetched(w: World, c: ConnectionId, since: Time, updates: seq<Update>)
    requires c in w.connections
  {
    IsAnswer(Stream(w, w.connections[c].provider), since, Sorted(updates))
  }

  function Since(w: World, c: ConnectionId, now: Time): Time
    requires c in w.connections
  {
    w.connections[c].statusCursor.UnwrapOr(now - COLD_START_WINDOW_MS)
  }

  /** A poll with `rest` still to work through. */
  ghost function Progress(w: World, c: ConnectionId, now: Time, rest: seq<Update>, watermark: Option<Time>): Poll
    requires c in w.connections
  {
    Poll(c, Since(w, c, now), w.connections[c].statusCursor.None?, Some(rest), None, watermark)
  }

  /** The connection once the cursor is written. */
  function Moved(connection: Connection, now: Time, watermark: Option<Time>): Connection {
    var since := now - COLD_START_WINDOW_MS;
    connection.(statusCursor := watermark,
                coldStart := if connection.statusCursor.Some? then connection.coldStart
                             else Some(Max(since, connection.coldStart.UnwrapOr(since))))
  }

  ghost predicate IsNewest(updates: seq<Update>, at: Time) {
    && (exists u :: u in updates && u.occurredAt == at)
    && (forall u :: u in updates ==> u.occurredAt <= at)
  }

  /** One whole poll: the statuses are worked through and the cursor stands at the newest of them. */
  ghost predicate Polled(w: World, v: World, c: ConnectionId, updates: seq<Update>, report: StatusPollReport) {
    && c in w.connections && c in v.connections
    && Applied(w, v.(connections := w.connections), c, Sorted(updates))
    && (updates == [] ==> v.connections == w.connections)
    && (updates != [] ==>
          && v.connections[c].statusCursor.Some? && IsNewest(updates, v.connections[c].statusCursor.value)
          && v.connections == w.connections[c := v.connections[c]]
          && v.connections[c] == w.connections[c].(statusCursor := v.connections[c].statusCursor, coldStart := v.connections[c].coldStart))
    && report.fetched == |updates|
    && report.recorded == |v.history| - |w.history|
    && report.unmatched == |Orphans(w, c, Sorted(updates))|
  }

  lemma ReachableIsSound(w: World, trace: seq<Step>)
    requires Exec(INITIAL, trace) == Some(w)
    ensures Inv(w)
  {
    ExecKeepsInv(INITIAL, trace);
  }

  lemma SameLength(a: seq<Update>, b: seq<Update>)
    requires multiset(a) == multiset(b)
    ensures |a| == |b|
  {
    assert |multiset(a)| == |a| && |multiset(b)| == |b|;
  }

  lemma PolledNothing(w: World, c: ConnectionId)
    requires Applied(w, w, c, []) && c in w.connections
    ensures Polled(w, w, c, [], StatusPollReport(0, 0, 0))
  {
    hide Applied;
    assert w == w.(connections := w.connections);
  }

  lemma OrphansGrow(w: World, c: ConnectionId, done: seq<Update>, u: Update)
    ensures Orphans(w, c, done + [u]) == Orphans(w, c, done) + if IsMatched(w, c, u) then [] else [u]
  {
    assert (done + [u])[..|done + [u]| - 1] == done;
  }

  lemma MatchedIsMatched(v: World, c: ConnectionId, u: Update, r: RowId)
    requires r in v.rows && Matches(v.rows[r], c, u)
    ensures IsMatched(v, c, u)
  {}

  lemma NoneIsUnmatched(v: World, c: ConnectionId, u: Update)
    requires forall r :: r in v.rows ==> !Matches(v.rows[r], c, u)
    ensures !IsMatched(v, c, u)
  {}

  lemma ProgressAdvances(w: World, v: World, t: TaskId, c: ConnectionId, now: Time, ordered: seq<Update>, k: nat, watermark: Option<Time>)
    requires c in w.connections && k < |ordered| && t !in v.polls
    ensures var p := Progress(w, c, now, ordered[k..], watermark);
      && p.connection == c && AtWork(v, t, p) && Head(p) == ordered[k]
      && Advance(p) == Progress(w, c, now, ordered[k + 1..], Some(ordered[k].occurredAt))
  {
    assert ordered[k..][1..] == ordered[k + 1..];
  }

  lemma TracedOpening(w: World, trace: seq<Step>, t: TaskId, c: ConnectionId, now: Time, updates: seq<Update>)
    requires Exec(INITIAL, trace) == Some(w) && t !in w.polls && c in w.connections
    requires IsFetched(w, c, Since(w, c, now), updates)
    ensures Exec(INITIAL, trace + [StartPoll(t, c, now)] + [Fetch(t, Sorted(updates))])
            == Some(Midway(w, t, Progress(w, c, now, Sorted(updates), None)))
  {
    hide Exec, IsAnswer;
    Traced(w, trace, StartPoll(t, c, now));
    var begun := AfterStartPoll(w, t, c, now);
    assert Stream(begun, w.connections[c].provider) == Stream(w, w.connections[c].provider);
    Traced(begun, trace + [StartPoll(t, c, now)], Fetch(t, Sorted(updates)));
    assert AfterFetch(begun, t, Sorted(updates)) == Midway(w, t, Progress(w, c, now, Sorted(updates), None));
  }

  lemma TracedClosing(w: World, v: World, trace: seq<Step>, t: TaskId, c: ConnectionId, now: Time, watermark: Option<Time>)
    requires c in w.connections && v.connections == w.connections && t !in v.polls && watermark.Some?
    requires Exec(INITIAL, trace) == Some(Midway(v, t, Progress(w, c, now, [], watermark)))
    ensures Exec(INITIAL, trace + [CommitCursor(t)])
            == Some(v.(connections := v.connections[c := Moved(v.connections[c], now, watermark)]))
  {
    hide Exec;
    var midway := Midway(v, t, Progress(w, c, now, [], watermark));
    Traced(midway, trace, CommitCursor(t));
    assert AfterCommit(midway, t).polls == v.polls;
  }

  lemma KeepsConnections(w: World, v: World, c: ConnectionId, done: seq<Update>)
    requires Applied(w, v, c, done)
    ensures v.connections == w.connections && w.history <= v.history
  {}

  /** The last of a sorted sequence is the newest, in whatever order the answer came. */
  lemma LastIsNewest(updates: seq<Update>)
    requires updates != []
    ensures Sorted(updates) != [] && IsNewest(updates, Sorted(updates)[|Sorted(updates)| - 1].occurredAt)
  {
    SortedIsSorted(updates);
    SameLength(Sorted(updates), updates);
    var last := Sorted(updates)[|Sorted(updates)| - 1];
    assert last in Sorted(updates);
  }

  lemma PolledWell(w: World, v: World, c: ConnectionId, now: Time, updates: seq<Update>, watermark: Option<Time>)
    requires Applied(w, v, c, Sorted(updates)) && updates != [] && c in w.connections
    requires |Sorted(updates)| == |updates| && watermark == Some(Sorted(updates)[|updates| - 1].occurredAt)
    ensures w.history <= v.history && |w.history| <= |v.history|
    ensures Polled(w, v.(connections := w.connections[c := Moved(w.connections[c], now, watermark)]), c, updates,
                   StatusPollReport(|updates|, |v.history| - |w.history|, |Orphans(w, c, Sorted(updates))|))
  {
    hide Applied, IsNewest, Sorted, Orphans, Max;
    LastIsNewest(updates);
    KeepsConnections(w, v, c, Sorted(updates));
    GrownHistory(w, v);
    var closed := v.(connections := w.connections[c := Moved(w.connections[c], now, watermark)]);
    assert closed.(connections := w.connections) == v;
  }

  lemma GrownHistory(w: World, v: World)
    requires w.history <= v.history
    ensures |w.history| <= |v.history|
  {
    assert v.history == w.history + (v.history - w.history);
  }

  /** Before update `k`: the first `k` are applied, counted and traced. */
  ghost predicate Underway(w: World, v: World, trace: seq<Step>, t: TaskId, c: ConnectionId, now: Time, ordered: seq<Update>, k: nat,
                           watermark: Option<Time>, recorded: int, unmatched: int)
    requires c in w.connections
  {
    && k <= |ordered| && t !in v.polls
    && Applied(w, v, c, ordered[..k])
    && Exec(INITIAL, trace) == Some(Midway(v, t, Progress(w, c, now, ordered[k..], watermark)))
    && (k > 0 ==> watermark == Some(ordered[k - 1].occurredAt))
    && recorded == |v.history| - |w.history| && unmatched == |Orphans(w, c, ordered[..k])|
  }

  lemma UnderwayStarts(w: World, trace: seq<Step>, t: TaskId, c: ConnectionId, now: Time, updates: seq<Update>)
    requires Exec(INITIAL, trace) == Some(w) && t !in w.polls && c in w.connections
    requires IsFetched(w, c, Since(w, c, now), updates)
    ensures Underway(w, w, trace + [StartPoll(t, c, now)] + [Fetch(t, Sorted(updates))], t, c, now, Sorted(updates), 0, None, 0, 0)
  {
    hide Exec, Applied, Inv, Midway, Progress, IsFetched;
    TracedOpening(w, trace, t, c, now, updates);
    ReachableIsSound(w, trace);
    AppliedNone(w, c);
    assert Sorted(updates)[0..] == Sorted(updates) && Sorted(updates)[..0] == [];
  }

  lemma UnderwayMeetsOrphan(w: World, v: World, trace: seq<Step>, t: TaskId, c: ConnectionId, now: Time, ordered: seq<Update>, k: nat,
                            watermark: Option<Time>, recorded: int, unmatched: int)
    requires c in w.connections && Underway(w, v, trace, t, c, now, ordered, k, watermark, recorded, unmatched) && k < |ordered|
    requires forall r :: r in v.rows ==> !Matches(v.rows[r], c, ordered[k])
    ensures Underway(w, v.(unmatched := v.unmatched + {(c, ordered[k])}), trace + [MatchStatus(t, None)], t, c, now, ordered, k + 1,
                     Some(ordered[k].occurredAt), recorded, unmatched + 1)
  {
    hide Exec, Applied, Midway, Progress, Advance, AtWork, Head, Orphans;
    var u := ordered[k];
    assert ordered[..k + 1] == ordered[..k] + [u];
    NoneIsUnmatched(v, c, u);
    hide Matches, IsMatched;
    SameMatches(w, v, c, ordered[..k], u);
    ProgressAdvances(w, v, t, c, now, ordered, k, watermark);
    TracedOrphan(v, trace, t, Progress(w, c, now, ordered[k..], watermark));
    AppliedUnmatched(w, v, c, ordered[..k], u);
    OrphansGrow(w, c, ordered[..k], u);
  }

  lemma UnderwayMeetsStatus(w: World, v: World, trace: seq<Step>, t: TaskId, c: ConnectionId, now: Time, ordered: seq<Update>, k: nat,
                            watermark: Option<Time>, recorded: int, unmatched: int, r: RowId)
    requires c in w.connections && Underway(w, v, trace, t, c, now, ordered, k, watermark, recorded, unmatched) && k < |ordered|
    requires Inv(w) && r in v.rows && Matches(v.rows[r], c, ordered[k])
    ensures v.rows[r].invoice in v.invoices
    ensures var written := StatusFor(v.rows[r], ordered[k]) !in v.history;
            Underway(w, if written then Recorded(v, r, ordered[k]) else v,
                     trace + [MatchStatus(t, Some(r))] + [Step.ApplyStatus(t)], t, c, now, ordered, k + 1,
                     Some(ordered[k].occurredAt), recorded + (if written then 1 else 0), unmatched)
  {
    hide Exec, Applied, Midway, Progress, Advance, AtWork, Head, Orphans, Inv, Matches, StatusFor;
    var u := ordered[k];
    assert ordered[..k + 1] == ordered[..k] + [u];
    MatchedIsMatched(v, c, u, r);
    SameMatches(w, v, c, ordered[..k], u);
    ProgressAdvances(w, v, t, c, now, ordered, k, watermark);
    TracedStatus(v, trace, t, Progress(w, c, now, ordered[k..], watermark), r);
    OrphansGrow(w, c, ordered[..k], u);
    if StatusFor(v.rows[r], u) in v.history {
      AppliedSeen(w, v, c, ordered[..k], u, r);
    } else {
      AppliedNew(w, v, c, ordered[..k], u, r);
    }
  }

  lemma UnderwayEnds(w: World, v: World, trace: seq<Step>, t: TaskId, c: ConnectionId, now: Time, updates: seq<Update>,
                     watermark: Option<Time>, recorded: int, unmatched: int)
    requires c in w.connections && updates != []
    requires Underway(w, v, trace, t, c, now, Sorted(updates), |Sorted(updates)|, watermark, recorded, unmatched)
    ensures c in v.connections && recorded >= 0 && unmatched >= 0
    ensures var closed := v.(connections := v.connections[c := Moved(v.connections[c], now, watermark)]);
            && Exec(INITIAL, trace + [CommitCursor(t)]) == Some(closed)
            && Polled(w, closed, c, updates, StatusPollReport(|updates|, recorded, unmatched))
  {
    hide Exec, Applied, Midway, Progress, Moved, Orphans, IsNewest, Sorted;
    var ordered := Sorted(updates);
    SortedIsSorted(updates);
    SameLength(ordered, updates);
    assert ordered[..|ordered|] == ordered && ordered[|ordered|..] == [];
    KeepsConnections(w, v, c, ordered);
    TracedClosing(w, v, trace, t, c, now, watermark);
    PolledWell(w, v, c, now, updates, watermark);
  }

  /** A recorded status takes invoice and row where its code says. */
  lemma RecordedSays(w: World, r: RowId, u: Update)
    requires r in w.rows && w.rows[r].invoice in w.invoices
    ensures var v, i := Recorded(w, r, u), w.rows[r].invoice;
            && i in v.invoices && v.invoices[i].state == StateAfter(w.invoices[i].state, {u.code})
            && r in v.rows && v.rows[r].state == Closed(w.rows[r].state, {u.code})
  {
    AdvancedIsStateAfter(w.invoices[w.rows[r].invoice].state, u.code);
    ClosedGrows(w.rows[r].state, {}, u.code);
    assert {} + {u.code} == {u.code};
    hide Advanced, StateAfter;
  }

  class SyncService {
    var db: World
    /** Every step taken since the empty world, this process's and everyone else's. */
    ghost var trace: seq<Step>

    ghost predicate Valid()
      reads this
    {
      Exec(INITIAL, trace) == Some(db)
    }

    constructor (db: World, ghost trace: seq<Step>)
      requires Exec(INITIAL, trace) == Some(db)
      ensures Valid() && this.db == db && this.trace == trace
    {
      this.db := db;
      this.trace := trace;
    }

    /** Works through what the platform answered, oldest first, and then moves the cursor. */
    method PollStatuses(c: ConnectionId, now: Time, updates: seq<Update>) returns (report: StatusPollReport)
      requires Valid() && c in db.connections
      requires IsFetched(db, c, db.connections[c].statusCursor.UnwrapOr(now - 24 * 60 * 60 * 1000), updates)
      modifies this
      ensures Valid()
      ensures Polled(old(db), db, c, updates, report)
    {
      ghost var w, t := db, FreshId(db.polls.Keys, 0);
      hide Exec, Inv, Applied, Underway, Polled, IsFetched, Since, Sorted, Matches, Recorded, Moved, StatusFor;
      ReachableIsSound(db, trace);
      if updates == [] {
        AppliedNone(w, c);
        PolledNothing(w, c);
        return StatusPollReport(0, 0, 0);
      }
      var ordered := Sorted(updates);
      var recorded, unmatched, k := 0, 0, 0;
      var watermark: Option<Time> := None;
      UnderwayStarts(w, trace, t, c, now, updates);
      ghost var log := trace + [StartPoll(t, c, now)] + [Fetch(t, ordered)];
      while k < |ordered|
        invariant k <= |ordered|
        invariant Underway(w, db, log, t, c, now, ordered, k, watermark, recorded, unmatched)
      {
        var u := ordered[k];
        if r :| r in db.rows && Matches(db.rows[r], c, u) {
          UnderwayMeetsStatus(w, db, log, t, c, now, ordered, k, watermark, recorded, unmatched, r);
          log := log + [MatchStatus(t, Some(r))] + [Step.ApplyStatus(t)];
          var written := ApplyStatus(r, u);
          if written {
            recorded := recorded + 1;
          }
        } else {
          UnderwayMeetsOrphan(w, db, log, t, c, now, ordered, k, watermark, recorded, unmatched);
          log := log + [MatchStatus(t, None)];
          unmatched := unmatched + 1;
          db := db.(unmatched := db.unmatched + {(c, u)});
        }
        watermark := Some(u.occurredAt);
        k := k + 1;
      }
      UnderwayEnds(w, db, log, t, c, now, updates, watermark, recorded, unmatched);
      trace := log + [CommitCursor(t)];
      db := db.(connections := db.connections[c := Moved(db.connections[c], now, watermark)]);
      report := StatusPollReport(|updates|, recorded, unmatched);
    }

    /** One status and what it implies, in one transaction; `written` tells a first sight from a repeat. */
    method ApplyStatus(r: RowId, u: Update) returns (written: bool)
      requires r in db.rows && db.rows[r].invoice in db.invoices
      modifies this`db
      ensures written <==> StatusFor(old(db).rows[r], u) !in old(db).history
      ensures db == if written then Recorded(old(db), r, u) else old(db)
      ensures var i := old(db).rows[r].invoice;
              written ==>
                && db.invoices[i].state == StateAfter(old(db).invoices[i].state, {u.code})
                && db.rows[r].state == Closed(old(db).rows[r].state, {u.code})
    {
      RecordedSays(db, r, u);
      hide Advanced, Acknowledging, Rejecting, StateAfter, Closed;
      var row := db.rows[r];
      var status := StatusFor(row, u);
      if status in db.history {
        return false;
      }
      var invoice := db.invoices[row.invoice];
      var state := row.state;
      if Acknowledging(u.code) && state == SENT {
        state := ACKNOWLEDGED;
      }
      if Rejecting(u.code) && state == PENDING {
        state := RowState.FAILED;
      }
      db := db.(history := db.history + {status},
                invoices := db.invoices[row.invoice := invoice.(state := Advanced(invoice.state, u.code))],
                rows := db.rows[r := row.(state := state)]);
      written := true;
    }
  }
}
