/** A client's platforms: one connection each, and one of them active at most, in every run. */
module PdpConnections {
  import opened Prelude
  import opened Pdp
  import opened PdpSafety

  ghost predicate OnePerProvider(connections: map<ConnectionId, Connection>) {
    forall c, d ::
      (c in connections && d in connections && connections[c].client == connections[d].client
       && connections[c].provider == connections[d].provider) ==> c == d
  }

  ghost predicate OneActive(connections: map<ConnectionId, Connection>) {
    forall c, d ::
      (c in connections && d in connections && connections[c].client == connections[d].client
       && connections[c].active && connections[d].active) ==> c == d
  }

  ghost predicate ConnectionsOk(connections: map<ConnectionId, Connection>) {
    OnePerProvider(connections) && OneActive(connections)
  }

  /** What a save does: the connection stands as saved, its client's others are off if it is on, and the rest stays. */
  lemma SavedConnection(w: World, c: ConnectionId, client: ClientId, provider: Provider, active: bool)
    requires Enabled(w, SaveConnection(c, client, provider, active))
    ensures var before, after := w.connections, Next(w, SaveConnection(c, client, provider, active)).connections;
            && c in after && after[c].client == client && after[c].provider == provider && after[c].active == active
            && (c in before ==> after[c] == before[c].(active := active))
            && (c !in before ==> after[c].statusCursor == None && after[c].coldStart == None)
            && after.Keys == before.Keys + {c}
            && (OnePerProvider(before) ==>
                  forall d :: d in before && d != c ==>
                    after[d] == if active && before[d].client == client then before[d].(active := false) else before[d])
  {}

  /** A platform the client has no connection to can always be added, whatever others it has. */
  lemma AnyPlatformCanBeAdded(w: World, c: ConnectionId, client: ClientId, provider: Provider, active: bool)
    requires c !in w.connections
    requires forall d :: d in w.connections && w.connections[d].client == client ==> w.connections[d].provider != provider
    ensures Enabled(w, SaveConnection(c, client, provider, active))
  {}

  lemma SaveKeepsConnections(w: World, c: ConnectionId, client: ClientId, provider: Provider, active: bool)
    requires ConnectionsOk(w.connections) && Enabled(w, SaveConnection(c, client, provider, active))
    ensures ConnectionsOk(Next(w, SaveConnection(c, client, provider, active)).connections)
  {
    hide ConnectionsOk, OneActive, Try;
    assert OnePerProvider(w.connections) && OneActive(w.connections) by { Both(w.connections); }
    SavedConnection(w, c, client, provider, active);
    SavedIsNew(w, c, client, provider, active);
    SavedAmong(w.connections, Next(w, SaveConnection(c, client, provider, active)).connections, c, active);
  }

  lemma Both(connections: map<ConnectionId, Connection>)
    requires ConnectionsOk(connections)
    ensures OnePerProvider(connections) && OneActive(connections)
  {}

  lemma SavedAmong(before: map<ConnectionId, Connection>, after: map<ConnectionId, Connection>, c: ConnectionId, active: bool)
    requires OnePerProvider(before) && OneActive(before)
    requires c in after && after[c].active == active && after.Keys == before.Keys + {c}
    requires c in before ==> after[c] == before[c].(active := active)
    requires forall d :: d in before && before[d].client == after[c].client && before[d].provider == after[c].provider ==> d == c
    requires forall d :: d in before && d != c ==>
               after[d] == if active && before[d].client == after[c].client then before[d].(active := false) else before[d]
    ensures ConnectionsOk(after)
  {}

  lemma SavedIsNew(w: World, c: ConnectionId, client: ClientId, provider: Provider, active: bool)
    requires Enabled(w, SaveConnection(c, client, provider, active)) && OnePerProvider(w.connections)
    ensures forall d :: d in w.connections && w.connections[d].client == client && w.connections[d].provider == provider ==> d == c
  {}

  lemma CommitKeepsConnections(w: World, t: TaskId)
    requires ConnectionsOk(w.connections) && Enabled(w, CommitCursor(t))
    ensures ConnectionsOk(Next(w, CommitCursor(t)).connections)
  {}

  lemma ApplyKeepsConnections(w: World, t: TaskId)
    requires Enabled(w, ApplyStatus(t))
    ensures Next(w, ApplyStatus(t)).connections == w.connections
  {
    TakenApply(w, t);
    NewStatusKeepsConnections(w, t);
    hide AfterNewStatus, Try, CanApply;
  }

  lemma TakenApply(w: World, t: TaskId)
    requires Enabled(w, ApplyStatus(t))
    ensures CanApply(w, t) && Next(w, ApplyStatus(t)) == AfterApply(w, t)
  {
    hide CanApply, AfterApply;
  }

  lemma NewStatusKeepsConnections(w: World, t: TaskId)
    requires CanApply(w, t)
    ensures AfterNewStatus(w, t).connections == w.connections
  {
    hide AppliedRow, ReportedStatus;
  }

  /** Every other step leaves connections alone. */
  lemma OthersKeepConnections(w: World, step: Step)
    requires Enabled(w, step) && !step.SaveConnection? && !step.CommitCursor? && !step.ApplyStatus? && !step.MatchStatus?
    ensures Next(w, step).connections == w.connections
  {
    if step.Issue? || step.Receive? || step.ReadInvoice? || step.ReadConnection? || step.Insert? || step.Claim? || step.Begin? {
      EarlyStepsKeepConnections(w, step);
    } else if step.Send? || step.Fail? || step.RecordSent? || step.RecordFailure? || step.ReadRow? || step.Requeue? {
      SendingKeepsConnections(w, step);
    } else {
      PollingKeepsConnections(w, step);
    }
    hide Try;
  }

  lemma EarlyStepsKeepConnections(w: World, step: Step)
    requires Enabled(w, step)
    requires step.Issue? || step.Receive? || step.ReadInvoice? || step.ReadConnection? || step.Insert? || step.Claim? || step.Begin?
    ensures Next(w, step).connections == w.connections
  {
    hide KeyTaken, Due, KeyOf;
  }

  lemma SendingKeepsConnections(w: World, step: Step)
    requires Enabled(w, step)
    requires step.Send? || step.Fail? || step.RecordSent? || step.RecordFailure? || step.ReadRow? || step.Requeue?
    ensures Next(w, step).connections == w.connections
  {
    hide DelaySeconds;
  }

  lemma PollingKeepsConnections(w: World, step: Step)
    requires Enabled(w, step) && (step.StartPoll? || step.Fetch? || step.Publish? || step.Drop?)
    ensures Next(w, step).connections == w.connections
  {
    hide CanStartPoll, CanFetch;
  }

  lemma MatchKeepsConnections(w: World, t: TaskId, found: Option<RowId>)
    requires Enabled(w, MatchStatus(t, found))
    ensures Next(w, MatchStatus(t, found)).connections == w.connections
  {}

  lemma StepKeepsConnections(w: World, step: Step)
    requires ConnectionsOk(w.connections) && Enabled(w, step)
    ensures ConnectionsOk(Next(w, step).connections)
  {
    hide Try, ConnectionsOk;
    match step
    case SaveConnection(c, client, provider, active) => SaveKeepsConnections(w, c, client, provider, active);
    case CommitCursor(t) => CommitKeepsConnections(w, t);
    case MatchStatus(t, found) => MatchKeepsConnections(w, t, found);
    case ApplyStatus(t) => ApplyKeepsConnections(w, t);
    case _ => OthersKeepConnections(w, step);
  }

  lemma {:induction false} ExecKeepsConnections(w: World, steps: seq<Step>)
    requires ConnectionsOk(w.connections) && Exec(w, steps).Some?
    ensures ConnectionsOk(Exec(w, steps).value.connections)
  {
    hide ConnectionsOk, Try;
    if steps != [] {
      var before := steps[..|steps| - 1];
      ExecKeepsConnections(w, before);
      StepKeepsConnections(Exec(w, before).value, steps[|steps| - 1]);
    }
  }

  /** Whatever was saved, switched and polled, a client has one connection to a platform, and sends over one at a time. */
  lemma AtMostOneActiveConnection(w: World, c: ConnectionId, d: ConnectionId)
    requires Reachable(w) && c in w.connections && d in w.connections && w.connections[c].client == w.connections[d].client
    ensures w.connections[c].provider == w.connections[d].provider ==> c == d
    ensures w.connections[c].active && w.connections[d].active ==> c == d
  {
    var steps :| Exec(INITIAL, steps) == Some(w);
    ExecKeepsConnections(INITIAL, steps);
    hide Exec;
  }
  // ---------------------------------------------------------------------- whose connection a row is sent over

  ghost predicate OverOwn(w: World, c: ConnectionId, i: InvoiceId) {
    c in w.connections && i in w.invoices && w.connections[c].client == w.invoices[i].client
  }

  ghost predicate ClientsOk(w: World) {
    && (forall r :: r in w.rows ==> OverOwn(w, w.rows[r].connection, w.rows[r].invoice))
    && (forall t :: t in w.enqueues && w.enqueues[t].connection.Some? ==> OverOwn(w, w.enqueues[t].connection.value, w.enqueues[t].invoice))
  }

  /** Steps that add no row and choose no connection. */
  ghost predicate ChoosesNothing(w: World, v: World) {
    && v.rows.Keys == w.rows.Keys
    && forall t :: t in v.enqueues && v.enqueues[t].connection.Some? ==> t in w.enqueues && w.enqueues[t] == v.enqueues[t]
  }

  lemma ChoosingNothingKeeps(w: World, v: World)
    requires ClientsOk(w) && Extends(w, v) && ChoosesNothing(w, v)
    ensures ClientsOk(v)
  {}

  lemma ReadingKeepsClients(w: World, t: TaskId, c: ConnectionId)
    requires ClientsOk(w) && Enabled(w, ReadConnection(t, c))
    ensures ClientsOk(Next(w, ReadConnection(t, c)))
  {}

  lemma InsertingKeepsClients(w: World, t: TaskId, r: RowId, now: Time)
    requires ClientsOk(w) && Enabled(w, Insert(t, r, now))
    ensures ClientsOk(Next(w, Insert(t, r, now)))
  {
    hide KeyTaken;
  }

  lemma EarlyStepsChooseNothing(w: World, step: Step)
    requires Enabled(w, step) && (step.Issue? || step.Receive? || step.ReadInvoice? || step.Claim? || step.Begin? || step.SaveConnection?)
    ensures ChoosesNothing(w, Next(w, step))
  {
    hide CanIssue, CanSaveConnection, Due, KeyOf;
  }

  lemma SendingChoosesNothing(w: World, step: Step)
    requires Enabled(w, step)
    requires step.Send? || step.Fail? || step.RecordSent? || step.RecordFailure? || step.ReadRow? || step.Requeue?
    ensures ChoosesNothing(w, Next(w, step))
  {
    hide DelaySeconds;
  }

  lemma PollingChoosesNothing(w: World, step: Step)
    requires Enabled(w, step) && (step.StartPoll? || step.Fetch? || step.Publish? || step.Drop? || step.CommitCursor?)
    ensures ChoosesNothing(w, Next(w, step))
  {
    hide CanStartPoll, CanFetch;
  }

  lemma MatchChoosesNothing(w: World, t: TaskId, found: Option<RowId>)
    requires Enabled(w, MatchStatus(t, found))
    ensures ChoosesNothing(w, Next(w, MatchStatus(t, found)))
  {}

  lemma NewStatusChoosesNothing(w: World, t: TaskId)
    requires CanApply(w, t) && w.polls[t].matched.value.row in w.rows
    ensures ChoosesNothing(w, AfterNewStatus(w, t))
  {
    hide AppliedRow, ReportedStatus;
  }

  lemma ApplyChoosesNothing(w: World, t: TaskId)
    requires Inv(w) && Enabled(w, ApplyStatus(t))
    ensures ChoosesNothing(w, Next(w, ApplyStatus(t)))
  {
    TakenApply(w, t);
    PollIsOk(w, t);
    NewStatusChoosesNothing(w, t);
    hide AfterNewStatus, Try, CanApply, Inv;
  }

  lemma RestChooseNothing(w: World, step: Step)
    requires Enabled(w, step) && !step.ReadConnection? && !step.Insert? && !step.MatchStatus? && !step.ApplyStatus?
    ensures ChoosesNothing(w, Next(w, step))
  {
    hide Try, ChoosesNothing;
    if step.Issue? || step.Receive? || step.ReadInvoice? || step.Claim? || step.Begin? || step.SaveConnection? {
      EarlyStepsChooseNothing(w, step);
    } else if step.Send? || step.Fail? || step.RecordSent? || step.RecordFailure? || step.ReadRow? || step.Requeue? {
      SendingChoosesNothing(w, step);
    } else {
      PollingChoosesNothing(w, step);
    }
  }

  lemma StepKeepsClients(w: World, step: Step)
    requires Inv(w) && ClientsOk(w) && Enabled(w, step)
    ensures ClientsOk(Next(w, step))
  {
    StepKeepsInv(w, step);
    hide *;
    if step.ReadConnection? {
      ReadingKeepsClients(w, step.task, step.connection);
    } else if step.Insert? {
      InsertingKeepsClients(w, step.task, step.row, step.now);
    } else {
      if step.MatchStatus? {
        MatchChoosesNothing(w, step.task, step.found);
      } else if step.ApplyStatus? {
        ApplyChoosesNothing(w, step.task);
      } else {
        RestChooseNothing(w, step);
      }
      ChoosingNothingKeeps(w, Next(w, step));
    }
  }

  lemma {:induction false} ExecKeepsClients(w: World, steps: seq<Step>)
    requires Inv(w) && ClientsOk(w) && Exec(w, steps).Some?
    ensures ClientsOk(Exec(w, steps).value)
  {
    hide Inv, ClientsOk, Try;
    if steps != [] {
      var before := steps[..|steps| - 1];
      ExecKeepsClients(w, before);
      ExecKeepsInv(w, before);
      StepKeepsClients(Exec(w, before).value, steps[|steps| - 1]);
    }
  }

  lemma InitialIsOk()
    ensures ClientsOk(INITIAL)
  {}

  /** In every run a row is sent over a connection of its invoice's own client. */
  lemma RowsGoOverOwnConnections(w: World, r: RowId)
    requires Reachable(w) && r in w.rows
    ensures var row := w.rows[r];
            row.connection in w.connections && row.invoice in w.invoices && w.connections[row.connection].client == w.invoices[row.invoice].client
  {
    InitialIsOk();
    var steps :| Exec(INITIAL, steps) == Some(w);
    ExecKeepsClients(INITIAL, steps);
    hide Exec, Inv;
  }

  /** And what an enqueue chooses is the one active connection of that client. */
  lemma TheActiveConnection(w: World, t: TaskId, c: ConnectionId)
    requires Reachable(w) && Enabled(w, ReadConnection(t, c))
    ensures w.connections[c].active && OverOwn(w, c, w.enqueues[t].invoice)
    ensures forall d :: d in w.connections && w.connections[d].active && w.connections[d].client == w.connections[c].client ==> d == c
  {
    forall d | d in w.connections && w.connections[d].active && w.connections[d].client == w.connections[c].client ensures d == c {
      AtMostOneActiveConnection(w, c, d);
    }
  }
}
