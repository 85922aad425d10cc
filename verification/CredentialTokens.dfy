/**
 One-time links as a state machine: every statement of issuing, checking, consuming and writing a
 password is its own step, and any number of submissions interleave.
 */
module CredentialTokens {
  import opened Prelude

  type Time = int // milliseconds
  type UserId = nat
  type TokenId = nat
  type TaskId = nat
  type Password = nat // the hash written

  datatype Purpose = PASSWORD_RESET | INVITATION

  const PASSWORD_RESET_TTL: Time := 2 * 60 * 60 * 1000
  const INVITATION_TTL: Time := 7 * 24 * 60 * 60 * 1000

  function TtlFor(purpose: Purpose): Time {
    if purpose == INVITATION then INVITATION_TTL else PASSWORD_RESET_TTL
  }

  datatype Link = Link(user: UserId, purpose: Purpose, expiresAt: Time, usedAt: Option<Time>, invalidatedAt: Option<Time>)

  /** A submission between its steps; `now` was read once, when it began. */
  datatype Stage = Checked | Consumed | Written
  datatype Submission = Submission(link: TokenId, user: UserId, password: Password, now: Time, stage: Stage)

  /** An issue between the update that supersedes earlier links and the insert. */
  datatype Issue = Issue(user: UserId, purpose: Purpose, now: Time)

  datatype Db = Db(
    links: map<TokenId, Link>,
    passwords: map<UserId, Password>,
    disabled: set<UserId>,
    submissions: map<TaskId, Submission>,
    issues: map<TaskId, Issue>,
    writes: seq<TokenId>,       // history: which link each password write came from
    endedSessions: seq<UserId>) // history: whose sessions were all revoked, in order

  const EMPTY := Db(map[], map[], {}, map[], map[], [], [])

  // ---------------------------------------------------------------------- issuing

  predicate Live(link: Link) {
    link.usedAt.None? && link.invalidatedAt.None?
  }

  function Superseded(links: map<TokenId, Link>, user: UserId, purpose: Purpose, now: Time): map<TokenId, Link> {
    map id | id in links ::
      if links[id].user == user && links[id].purpose == purpose && Live(links[id]) then links[id].(invalidatedAt := Some(now))
      else links[id]
  }

  function NewLink(user: UserId, purpose: Purpose, now: Time): Link {
    Link(user, purpose, now + TtlFor(purpose), None, None)
  }

  // ---------------------------------------------------------------------- checking and consuming

  datatype Failure = Unknown | Used | Outdated | Expired | Disabled

  function CheckLink(db: Db, id: TokenId, purpose: Purpose, now: Time): Result<UserId, Failure> {
    if id !in db.links || db.links[id].purpose != purpose then Err(Unknown)
    else
      var link := db.links[id];
      if link.usedAt.Some? then Err(Used)
      else if link.invalidatedAt.Some? then Err(Outdated)
      else if link.expiresAt <= now then Err(Expired)
      else if link.user in db.disabled then Err(Disabled)
      else Ok(link.user)
  }

  predicate CanConsume(db: Db, id: TokenId, now: Time) {
    id in db.links && Live(db.links[id]) && db.links[id].expiresAt > now
  }

  // ---------------------------------------------------------------------- steps and runs

  datatype Step =
    | Supersede(task: TaskId, user: UserId, purpose: Purpose, now: Time)
    | Insert(task: TaskId, id: TokenId)
    | IssueAtOnce(user: UserId, purpose: Purpose, id: TokenId, now: Time)
    | Check(task: TaskId, id: TokenId, purpose: Purpose, password: Password, now: Time)
    | Consume(task: TaskId)
    | Write(task: TaskId)
    | EndSessions(task: TaskId)
    | Drop(task: TaskId)
    | SetDisabled(user: UserId, disabled: bool)

  function Try(db: Db, step: Step): Option<Db> {
    match step
    case Supersede(t, user, purpose, now) =>
      if t in db.issues then None
      else Some(db.(links := Superseded(db.links, user, purpose, now), issues := db.issues[t := Issue(user, purpose, now)]))
    case Insert(t, id) =>
      if t !in db.issues || id in db.links then None
      else
        var i := db.issues[t];
        Some(db.(links := db.links[id := NewLink(i.user, i.purpose, i.now)], issues := db.issues - {t}))
    case IssueAtOnce(user, purpose, id, now) =>
      if id in db.links then None
      else Some(db.(links := Superseded(db.links, user, purpose, now)[id := NewLink(user, purpose, now)]))
    case Check(t, id, purpose, password, now) =>
      if t in db.submissions || CheckLink(db, id, purpose, now).Err? then None
      else Some(db.(submissions := db.submissions[t := Submission(id, CheckLink(db, id, purpose, now).value, password, now, Checked)]))
    case Consume(t) =>
      if t !in db.submissions || db.submissions[t].stage != Checked then None
      else
        var s := db.submissions[t];
        if CanConsume(db, s.link, s.now)
        then Some(db.(links := db.links[s.link := db.links[s.link].(usedAt := Some(s.now))],
                      submissions := db.submissions[t := s.(stage := Consumed)]))
        else Some(db.(submissions := db.submissions - {t}))
    case Write(t) =>
      if t !in db.submissions || db.submissions[t].stage != Consumed then None
      else
        var s := db.submissions[t];
        Some(db.(passwords := db.passwords[s.user := s.password], writes := db.writes + [s.link],
                 submissions := db.submissions[t := s.(stage := Written)]))
    case EndSessions(t) =>
      if t !in db.submissions || db.submissions[t].stage != Written then None
      else Some(db.(endedSessions := db.endedSessions + [db.submissions[t].user], submissions := db.submissions - {t}))
    case Drop(t) => Some(db.(submissions := db.submissions - {t}, issues := db.issues - {t}))
    case SetDisabled(user, disabled) => Some(db.(disabled := if disabled then db.disabled + {user} else db.disabled - {user}))
  }

  function Exec(steps: seq<Step>): Option<Db> {
    if steps == [] then Some(EMPTY)
    else
      match Exec(steps[..|steps| - 1])
      case None => None
      case Some(before) => Try(before, steps[|steps| - 1])
  }

  // ---------------------------------------------------------------------- at most one write per link

  ghost predicate SubmissionOk(db: Db, t: TaskId)
    requires t in db.submissions
  {
    var s := db.submissions[t];
    && s.link in db.links
    && db.links[s.link].user == s.user
    && (s.stage != Checked ==> db.links[s.link].usedAt == Some(s.now) && s.now < db.links[s.link].expiresAt)
    && (s.stage == Consumed ==> s.link !in db.writes)
  }

  ghost predicate Inv(db: Db) {
    && (forall t :: t in db.submissions ==> SubmissionOk(db, t))
    && (forall id :: id in db.links ==> db.links[id].usedAt.None? || db.links[id].invalidatedAt.None?)
    && (forall id :: id in db.writes ==> id in db.links && db.links[id].usedAt.Some?)
    && (forall t, u :: (t in db.submissions && u in db.submissions && t != u && db.submissions[t].link == db.submissions[u].link) ==>
          db.submissions[t].stage == Checked || db.submissions[u].stage == Checked)
    && (forall j, k :: 0 <= j < k < |db.writes| ==> db.writes[j] != db.writes[k])
  }

  /** A step on links alone: used links stay as they are, the others may only be superseded. */
  lemma LinksKeepInv(db: Db, v: Db)
    requires Inv(db)
    requires v.submissions == db.submissions && v.writes == db.writes
    requires forall id :: id in db.links ==>
               && id in v.links && v.links[id].user == db.links[id].user
               && v.links[id].usedAt == db.links[id].usedAt && v.links[id].expiresAt == db.links[id].expiresAt
    requires forall id :: id in v.links ==> v.links[id].usedAt.None? || v.links[id].invalidatedAt.None?
    ensures Inv(v)
  {
    forall t | t in v.submissions ensures SubmissionOk(v, t) {
      assert SubmissionOk(db, t);
    }
    hide SubmissionOk;
  }

  /** Submissions only go away. */
  lemma FewerKeepInv(db: Db, v: Db)
    requires Inv(db) && v.links == db.links && v.writes == db.writes
    requires forall t :: t in v.submissions ==> t in db.submissions && v.submissions[t] == db.submissions[t]
    ensures Inv(v)
  {
    forall t | t in v.submissions ensures SubmissionOk(v, t) {
      assert SubmissionOk(db, t);
    }
    hide SubmissionOk;
  }

  lemma CheckKeepsInv(db: Db, t: TaskId, id: TokenId, purpose: Purpose, password: Password, now: Time)
    requires Inv(db) && Try(db, Check(t, id, purpose, password, now)).Some?
    ensures Inv(Try(db, Check(t, id, purpose, password, now)).value)
  {
    var v := Try(db, Check(t, id, purpose, password, now)).value;
    forall u | u in v.submissions ensures SubmissionOk(v, u) {
      if u != t {
        assert SubmissionOk(db, u);
      }
    }
    hide SubmissionOk;
  }

  lemma ConsumeKeepsInv(db: Db, t: TaskId)
    requires Inv(db) && t in db.submissions && db.submissions[t].stage == Checked && CanConsume(db, db.submissions[t].link, db.submissions[t].now)
    ensures Inv(Try(db, Consume(t)).value)
  {
    var v := Try(db, Consume(t)).value;
    forall u | u in v.submissions ensures SubmissionOk(v, u) {
      assert SubmissionOk(db, u);
    }
    forall u | u in db.submissions && u != t && db.submissions[u].link == db.submissions[t].link
      ensures db.submissions[u].stage == Checked
    {
      assert SubmissionOk(db, u);
    }
    hide SubmissionOk;
  }

  lemma WriteKeepsInv(db: Db, t: TaskId)
    requires Inv(db) && Try(db, Write(t)).Some?
    ensures Inv(Try(db, Write(t)).value)
  {
    var v := Try(db, Write(t)).value;
    assert SubmissionOk(db, t);
    forall u | u in v.submissions ensures SubmissionOk(v, u) {
      assert SubmissionOk(db, u);
    }
    hide SubmissionOk;
  }

  lemma StepKeepsInv(db: Db, step: Step)
    requires Inv(db) && Try(db, step).Some?
    ensures Inv(Try(db, step).value)
  {
    var v := Try(db, step).value;
    match step
    case Check(t, id, purpose, password, now) => CheckKeepsInv(db, t, id, purpose, password, now);
    case Consume(t) =>
      if CanConsume(db, db.submissions[t].link, db.submissions[t].now) {
        ConsumeKeepsInv(db, t);
      } else {
        FewerKeepInv(db, v);
      }
    case Write(t) => WriteKeepsInv(db, t);
    case EndSessions(_) => FewerKeepInv(db, v);
    case Drop(_) => FewerKeepInv(db, v);
    case Supersede(_, _, _, _) => LinksKeepInv(db, v);
    case Insert(_, _) => LinksKeepInv(db, v);
    case IssueAtOnce(_, _, _, _) => LinksKeepInv(db, v);
    case SetDisabled(_, _) => LinksKeepInv(db, v);
  }

  lemma {:induction false} ExecKeepsInv(steps: seq<Step>)
    requires Exec(steps).Some?
    ensures Inv(Exec(steps).value)
  {
    hide Inv, Try;
    if steps == [] {
      EmptyIsOk();
    } else {
      ExecKeepsInv(steps[..|steps| - 1]);
      StepKeepsInv(Exec(steps[..|steps| - 1]).value, steps[|steps| - 1]);
    }
  }

  lemma EmptyIsOk()
    ensures Inv(EMPTY)
  {}

  /** In every interleaving, a link writes at most one password. */
  lemma AtMostOneWrite(steps: seq<Step>, j: nat, k: nat)
    requires Exec(steps).Some? && j < k < |Exec(steps).value.writes|
    ensures Exec(steps).value.writes[j] != Exec(steps).value.writes[k]
  {
    ExecKeepsInv(steps);
  }

  /** A write only ever came from a link that was live, unexpired and never superseded when it was consumed. */
  lemma WritesComeFromLiveLinks(steps: seq<Step>, id: TokenId)
    requires Exec(steps).Some? && id in Exec(steps).value.writes
    ensures var db := Exec(steps).value;
            id in db.links && db.links[id].usedAt.Some? && db.links[id].invalidatedAt.None?
  {
    ExecKeepsInv(steps);
  }

  /** A link stays its user's and of its kind; used or superseded, it never becomes live again. */
  predicate Settles(before: Link, after: Link) {
    && after.user == before.user && after.purpose == before.purpose
    && (before.usedAt.Some? ==> after.usedAt == before.usedAt)
    && (before.invalidatedAt.Some? ==> after.invalidatedAt == before.invalidatedAt)
  }

  lemma StepSettles(db: Db, step: Step, id: TokenId)
    requires Try(db, step).Some? && id in db.links
    ensures id in Try(db, step).value.links && Settles(db.links[id], Try(db, step).value.links[id])
  {}

  lemma {:induction false} LinksSettle(first: seq<Step>, second: seq<Step>, id: TokenId)
    requires Exec(first + second).Some? && Exec(first).Some? && id in Exec(first).value.links
    ensures id in Exec(first + second).value.links
    ensures Settles(Exec(first).value.links[id], Exec(first + second).value.links[id])
  {
    hide Try;
    if second == [] {
      assert first + second == first;
    } else {
      var all, before := first + second, second[..|second| - 1];
      assert all[..|all| - 1] == first + before;
      LinksSettle(first, before, id);
      StepSettles(Exec(first + before).value, all[|all| - 1], id);
    }
  }

  /** Once superseded, a link never writes, however its submissions are timed. */
  lemma SupersededNeverWrites(first: seq<Step>, second: seq<Step>, id: TokenId)
    requires Exec(first + second).Some? && Exec(first).Some?
    requires id in Exec(first).value.links && Exec(first).value.links[id].invalidatedAt.Some?
    ensures id !in Exec(first + second).value.writes
  {
    LinksSettle(first, second, id);
    if id in Exec(first + second).value.writes {
      WritesComeFromLiveLinks(first + second, id);
    }
  }

  /** A submission that began at or after the expiry of its link never consumes it. */
  lemma ExpiredIsNotConsumed(steps: seq<Step>, t: TaskId)
    requires Exec(steps).Some? && t in Exec(steps).value.submissions && Exec(steps).value.submissions[t].stage != Checked
    ensures var db := Exec(steps).value;
            db.submissions[t].link in db.links && db.submissions[t].now < db.links[db.submissions[t].link].expiresAt
  {
    ExecKeepsInv(steps);
    assert SubmissionOk(Exec(steps).value, t);
  }

  // ---------------------------------------------------------------------- one live link

  ghost predicate LivesFor(db: Db, id: TokenId, user: UserId, purpose: Purpose) {
    id in db.links && Live(db.links[id]) && db.links[id].user == user && db.links[id].purpose == purpose
  }

  ghost predicate OneLive(db: Db) {
    forall a, b, user, purpose :: LivesFor(db, a, user, purpose) && LivesFor(db, b, user, purpose) ==> a == b
  }

  ghost predicate Pending(db: Db, t: TaskId, user: UserId, purpose: Purpose) {
    t in db.issues && db.issues[t].user == user && db.issues[t].purpose == purpose
  }

  /** No issue starts while another for the same user and purpose is half done. */
  ghost predicate Serial(db: Db, step: Step) {
    && (step.Supersede? ==> forall t :: !Pending(db, t, step.user, step.purpose))
    && (step.IssueAtOnce? ==> forall t :: !Pending(db, t, step.user, step.purpose))
  }

  ghost predicate AllSerial(steps: seq<Step>) {
    forall k :: 0 <= k < |steps| && Exec(steps[..k]).Some? ==> Serial(Exec(steps[..k]).value, steps[k])
  }

  /** While an issue is half done, nothing of its kind is live. */
  ghost predicate IssuesOk(db: Db) {
    && OneLive(db)
    && (forall t, id, user, purpose :: Pending(db, t, user, purpose) ==> !LivesFor(db, id, user, purpose))
    && (forall t, u, user, purpose :: Pending(db, t, user, purpose) && Pending(db, u, user, purpose) ==> t == u)
  }

  lemma SupersedeKeepsIssues(db: Db, t: TaskId, user: UserId, purpose: Purpose, now: Time)
    requires IssuesOk(db) && t !in db.issues && forall u :: !Pending(db, u, user, purpose)
    ensures IssuesOk(Try(db, Supersede(t, user, purpose, now)).value)
  {
    var v := Try(db, Supersede(t, user, purpose, now)).value;
    assert forall id, u, p :: LivesFor(v, id, u, p) ==> LivesFor(db, id, u, p) && !(u == user && p == purpose);
    assert forall u, w, p :: Pending(v, u, w, p) ==> (u == t && w == user && p == purpose) || (u != t && Pending(db, u, w, p));
    hide LivesFor, Pending;
  }

  lemma InsertKeepsIssues(db: Db, t: TaskId, id: TokenId)
    requires IssuesOk(db) && Try(db, Insert(t, id)).Some?
    ensures IssuesOk(Try(db, Insert(t, id)).value)
  {
    var v := Try(db, Insert(t, id)).value;
    var i := db.issues[t];
    assert Pending(db, t, i.user, i.purpose);
    assert forall a, u, p :: LivesFor(v, a, u, p) ==> (a == id && u == i.user && p == i.purpose) || (a != id && LivesFor(db, a, u, p));
    assert forall u, w, p :: Pending(v, u, w, p) ==> u != t && Pending(db, u, w, p);
    hide LivesFor, Pending;
  }

  lemma IssueKeepsIssues(db: Db, user: UserId, purpose: Purpose, id: TokenId, now: Time)
    requires IssuesOk(db) && id !in db.links && forall t :: !Pending(db, t, user, purpose)
    ensures IssuesOk(Try(db, IssueAtOnce(user, purpose, id, now)).value)
  {
    var v := Try(db, IssueAtOnce(user, purpose, id, now)).value;
    assert forall a, u, p :: LivesFor(v, a, u, p) ==>
             (a == id && u == user && p == purpose) || (LivesFor(db, a, u, p) && !(u == user && p == purpose));
    assert forall u, w, p :: Pending(v, u, w, p) ==> Pending(db, u, w, p);
    hide LivesFor, Pending;
  }

  lemma StepKeepsIssues(db: Db, step: Step)
    requires IssuesOk(db) && Try(db, step).Some? && Serial(db, step)
    ensures IssuesOk(Try(db, step).value)
  {
    var v := Try(db, step).value;
    match step
    case Supersede(t, user, purpose, now) => SupersedeKeepsIssues(db, t, user, purpose, now);
    case Insert(t, id) => InsertKeepsIssues(db, t, id);
    case IssueAtOnce(user, purpose, id, now) => IssueKeepsIssues(db, user, purpose, id, now);
    case _ =>
      OthersOnlySettle(db, step);
      hide LivesFor, Pending, Try;
  }

  lemma OthersOnlySettle(db: Db, step: Step)
    requires Try(db, step).Some? && !step.Supersede? && !step.Insert? && !step.IssueAtOnce?
    ensures forall id, u, p :: LivesFor(Try(db, step).value, id, u, p) ==> LivesFor(db, id, u, p)
    ensures forall t, u, p :: Pending(Try(db, step).value, t, u, p) ==> Pending(db, t, u, p)
  {}

  lemma {:induction false} ExecKeepsIssues(steps: seq<Step>)
    requires Exec(steps).Some? && AllSerial(steps)
    ensures IssuesOk(Exec(steps).value)
  {
    hide Try, Serial, IssuesOk;
    if steps == [] {
      NoIssueYet();
    } else {
      var before := steps[..|steps| - 1];
      forall k | 0 <= k < |before| && Exec(before[..k]).Some? ensures Serial(Exec(before[..k]).value, before[k]) {
        assert before[..k] == steps[..k] && before[k] == steps[k];
      }
      ExecKeepsIssues(before);
      StepKeepsIssues(Exec(before).value, steps[|steps| - 1]);
    }
  }

  lemma NoIssueYet()
    ensures IssuesOk(EMPTY)
  {}

  /** When issues for one user and purpose do not overlap, at most one of their links is live at any time. */
  lemma AtMostOneLiveLink(steps: seq<Step>)
    requires Exec(steps).Some? && AllSerial(steps)
    ensures OneLive(Exec(steps).value)
  {
    ExecKeepsIssues(steps);
  }

  /** The insert of a half-done issue keeps links single exactly when no other link of its kind is live by then. */
  lemma InsertKeepsOneLiveIff(db: Db, t: TaskId, id: TokenId)
    requires OneLive(db) && Try(db, Insert(t, id)).Some?
    ensures OneLive(Try(db, Insert(t, id)).value) <==>
              forall other :: !LivesFor(db, other, db.issues[t].user, db.issues[t].purpose)
  {
    var v, i := Try(db, Insert(t, id)).value, db.issues[t];
    assert LivesFor(v, id, i.user, i.purpose);
    assert forall a, u, p :: a != id ==> (LivesFor(v, a, u, p) <==> LivesFor(db, a, u, p));
    assert forall u, p :: !LivesFor(db, id, u, p);
    assert forall u, p :: LivesFor(v, id, u, p) ==> u == i.user && p == i.purpose;
    hide LivesFor;
  }

  /** The step inserts a link while another of its kind is live. */
  ghost predicate Clashes(db: Db, step: Step) {
    && step.Insert? && step.task in db.issues
    && exists other :: LivesFor(db, other, db.issues[step.task].user, db.issues[step.task].purpose)
  }

  lemma SupersedingKeepsOneLive(db: Db, step: Step)
    requires OneLive(db) && Try(db, step).Some? && (step.Supersede? || step.IssueAtOnce?)
    ensures OneLive(Try(db, step).value)
  {
    var v := Try(db, step).value;
    assert forall a, u, p :: LivesFor(v, a, u, p) ==>
             || (step.IssueAtOnce? && a == step.id && u == step.user && p == step.purpose)
             || (LivesFor(db, a, u, p) && !(u == step.user && p == step.purpose));
    hide LivesFor, Try;
  }

  lemma FewerLive(db: Db, v: Db)
    requires OneLive(db) && forall id, u, p :: LivesFor(v, id, u, p) ==> LivesFor(db, id, u, p)
    ensures OneLive(v)
  {
    hide LivesFor;
  }

  /** Whatever the step, links stay single exactly when it is not such an insert. */
  lemma StepKeepsOneLiveIff(db: Db, step: Step)
    requires OneLive(db) && Try(db, step).Some?
    ensures OneLive(Try(db, step).value) <==> !Clashes(db, step)
  {
    hide OneLive, LivesFor;
    if step.Insert? {
      InsertKeepsOneLiveIff(db, step.task, step.id);
    } else if step.Supersede? || step.IssueAtOnce? {
      SupersedingKeepsOneLive(db, step);
    } else {
      OthersOnlySettle(db, step);
      hide Try;
      FewerLive(db, Try(db, step).value);
    }
  }

  lemma {:induction false} PrefixRuns(steps: seq<Step>, k: nat)
    requires Exec(steps).Some? && k <= |steps|
    ensures Exec(steps[..k]).Some?
  {
    hide Try;
    if k == |steps| {
      assert steps[..k] == steps;
    } else {
      PrefixRuns(steps[..|steps| - 1], k);
      assert steps[..|steps| - 1][..k] == steps[..k];
    }
  }

  ghost predicate NeverClashes(steps: seq<Step>) {
    forall k :: 0 <= k < |steps| && Exec(steps[..k]).Some? ==> !Clashes(Exec(steps[..k]).value, steps[k])
  }

  ghost predicate AlwaysOneLive(steps: seq<Step>) {
    forall k :: 0 <= k <= |steps| && Exec(steps[..k]).Some? ==> OneLive(Exec(steps[..k]).value)
  }

  lemma NextIsExec(steps: seq<Step>, k: nat)
    requires Exec(steps).Some? && k < |steps|
    ensures Exec(steps[..k]).Some? && Try(Exec(steps[..k]).value, steps[k]).Some?
    ensures Exec(steps[..k + 1]) == Try(Exec(steps[..k]).value, steps[k])
  {
    PrefixRuns(steps, k);
    PrefixRuns(steps, k + 1);
    hide Try;
    assert steps[..k + 1][..k] == steps[..k];
  }

  lemma {:induction false} OneLiveUpTo(steps: seq<Step>, k: nat)
    requires Exec(steps).Some? && NeverClashes(steps) && k <= |steps|
    ensures Exec(steps[..k]).Some? && OneLive(Exec(steps[..k]).value)
  {
    PrefixRuns(steps, k);
    if k == 0 {
      NoIssueYet();
    } else {
      OneLiveUpTo(steps, k - 1);
      NextIsExec(steps, k - 1);
      hide Exec, Try, OneLive, Clashes;
      StepKeepsOneLiveIff(Exec(steps[..k - 1]).value, steps[k - 1]);
    }
  }

  /** All through a run at most one link of each kind is live exactly when no insert of the run finds another. */
  lemma AlwaysOneLiveIff(steps: seq<Step>)
    requires Exec(steps).Some?
    ensures AlwaysOneLive(steps) <==> NeverClashes(steps)
  {
    hide OneLive, Clashes, Try, Exec;
    if NeverClashes(steps) {
      forall k | 0 <= k <= |steps| && Exec(steps[..k]).Some? ensures OneLive(Exec(steps[..k]).value) {
        OneLiveUpTo(steps, k);
      }
    }
    if AlwaysOneLive(steps) {
      forall k | 0 <= k < |steps| && Exec(steps[..k]).Some? ensures !Clashes(Exec(steps[..k]).value, steps[k]) {
        NextIsExec(steps, k);
        StepKeepsOneLiveIff(Exec(steps[..k]).value, steps[k]);
      }
    }
  }

  /** Where in the run a half-done issue superseded the links before it. */
  lemma {:induction false} IssueBegan(steps: seq<Step>, t: TaskId) returns (j: nat)
    requires Exec(steps).Some? && t in Exec(steps).value.issues
    ensures var i := Exec(steps).value.issues[t];
            j < |steps| && steps[j] == Supersede(t, i.user, i.purpose, i.now)
  {
    var last, before := steps[|steps| - 1], Exec(steps[..|steps| - 1]).value;
    if last.Supersede? && last.task == t {
      j := |steps| - 1;
    } else {
      assert t in before.issues && before.issues[t] == Exec(steps).value.issues[t];
      j := IssueBegan(steps[..|steps| - 1], t);
    }
  }

  lemma SupersededAll(db: Db, t: TaskId, user: UserId, purpose: Purpose, now: Time, id: TokenId)
    requires Try(db, Supersede(t, user, purpose, now)).Some?
    ensures !LivesFor(Try(db, Supersede(t, user, purpose, now)).value, id, user, purpose)
  {}

  /** A link an insert finds live is one that was made after that issue's own update, never one it missed. */
  lemma ClashCameLater(steps: seq<Step>, t: TaskId, id: TokenId) returns (j: nat)
    requires Exec(steps).Some? && t in Exec(steps).value.issues
    requires var i := Exec(steps).value.issues[t]; LivesFor(Exec(steps).value, id, i.user, i.purpose)
    ensures var i := Exec(steps).value.issues[t];
            j < |steps| && steps[j] == Supersede(t, i.user, i.purpose, i.now)
    ensures Exec(steps[..j + 1]).Some? && id !in Exec(steps[..j + 1]).value.links
  {
    var i := Exec(steps).value.issues[t];
    j := IssueBegan(steps, t);
    NextIsExec(steps, j);
    hide Exec, Try;
    SupersededAll(Exec(steps[..j]).value, t, i.user, i.purpose, i.now, id);
    if id in Exec(steps[..j + 1]).value.links {
      assert steps[..j + 1] + steps[j + 1..] == steps;
      LinksSettle(steps[..j + 1], steps[j + 1..], id);
    }
  }

  /** Issues made outside a transaction may overlap, and then two links of one user can both be live. */
  lemma OverlappingIssuesLeaveTwo()
    ensures var run := Exec([Supersede(0, 7, PASSWORD_RESET, 0), Supersede(1, 7, PASSWORD_RESET, 0), Insert(0, 0), Insert(1, 1)]);
            run.Some? && LivesFor(run.value, 0, 7, PASSWORD_RESET) && LivesFor(run.value, 1, 7, PASSWORD_RESET) && !OneLive(run.value)
  {
    var all := [Supersede(0, 7, PASSWORD_RESET, 0), Supersede(1, 7, PASSWORD_RESET, 0), Insert(0, 0), Insert(1, 1)];
    assert all[..3][..2] == all[..2] && all[..2][..1] == all[..1] && all[..1][..0] == [];
    var one := EMPTY.(issues := map[0 := Issue(7, PASSWORD_RESET, 0)]);
    var two := one.(issues := one.issues[1 := Issue(7, PASSWORD_RESET, 0)]);
    var three := two.(links := map[0 := NewLink(7, PASSWORD_RESET, 0)], issues := two.issues - {0});
    assert Superseded(map[], 7, PASSWORD_RESET, 0) == map[];
    assert Exec(all[..1]) == Some(one);
    assert Exec(all[..2]) == Some(two);
    assert Exec(all[..3]) == Some(three);
    assert Exec(all).Some?;
    var db := Exec(all).value;
    assert LivesFor(db, 0, 7, PASSWORD_RESET) && LivesFor(db, 1, 7, PASSWORD_RESET);
  }

  // ---------------------------------------------------------------------- one submission from end to end

  /** A submission that nothing interrupts: checked, consumed, the password written, the sessions ended. */
  function Submitted(db: Db, t: TaskId, id: TokenId, purpose: Purpose, password: Password, now: Time): Option<Db> {
    match Try(db, Check(t, id, purpose, password, now))
    case None => None
    case Some(a) =>
      match Try(a, Consume(t))
      case None => None
      case Some(b) =>
        match Try(b, Write(t))
        case None => None
        case Some(c) => Try(c, EndSessions(t))
  }

  /** Seven days for an invitation, two hours for a reset. */
  function Lifetime(purpose: Purpose): Time {
    match purpose
    case INVITATION => 7 * 86400000
    case PASSWORD_RESET => 2 * 3600000
  }

  /** A fresh link sets its user's password once, at any time within its lifetime and at none after it. */
  lemma FreshLinkWorksOnceInTime(db: Db, user: UserId, purpose: Purpose, id: TokenId, issued: Time,
                                 t: TaskId, password: Password, now: Time, again: Time)
    requires id !in db.links && t !in db.submissions && user !in db.disabled
    ensures var v := Try(db, IssueAtOnce(user, purpose, id, issued));
            && v.Some?
            && var done := Submitted(v.value, t, id, purpose, password, now);
               && (done.Some? <==> now < issued + Lifetime(purpose))
               && (done.Some? ==>
                     && done.value.passwords == db.passwords[user := password]
                     && done.value.writes == db.writes + [id]
                     && done.value.endedSessions == db.endedSessions + [user]
                     && done.value.submissions == db.submissions
                     && done.value.links == v.value.links[id := v.value.links[id].(usedAt := Some(now))]
                     && Submitted(done.value, t, id, purpose, password, again) == None)
  {
    var v := Try(db, IssueAtOnce(user, purpose, id, issued)).value;
    if now < issued + Lifetime(purpose) {
      var a := Try(v, Check(t, id, purpose, password, now)).value;
      var b := Try(a, Consume(t)).value;
      var c := Try(b, Write(t)).value;
      assert c.submissions - {t} == db.submissions;
    }
  }

  // ---------------------------------------------------------------------- the service, one call at a time

  datatype SetPasswordFailure = LinkFailed(failure: Failure) | WeakPassword

  class Accounts {
    var links: map<TokenId, Link>
    var passwords: map<UserId, Password>
    var disabled: set<UserId>
    /** Users whose sessions have all been revoked, in order. */
    var endedSessions: seq<UserId>

    ghost function State(): Db
      reads this
    {
      Db(links, passwords, disabled, map[], map[], [], endedSessions)
    }

    constructor ()
      ensures State() == EMPTY
    {
      links, passwords, disabled, endedSessions := map[], map[], {}, [];
    }

    method IssueCredentialToken(user: UserId, purpose: Purpose, id: TokenId, now: Time) returns (expiresAt: Time)
      requires id !in links
      modifies this`links
      ensures expiresAt == now + (if purpose == INVITATION then 7 * 86400000 else 2 * 3600000)
      ensures id in links && links[id] == Link(user, purpose, expiresAt, None, None)
      ensures Try(old(State()), IssueAtOnce(user, purpose, id, now)) == Some(State())
    {
      expiresAt := now + TtlFor(purpose);
      links := map k | k in links ::
        if links[k].user == user && links[k].purpose == purpose && links[k].usedAt.None? && links[k].invalidatedAt.None?
        then links[k].(invalidatedAt := Some(now)) else links[k];
      links := links[id := Link(user, purpose, expiresAt, None, None)];
      assert links == Superseded(old(links), user, purpose, now)[id := NewLink(user, purpose, now)];
    }

    method ConsumeCredentialToken(id: TokenId, now: Time) returns (consumed: bool)
      modifies this`links
      ensures consumed <==> CanConsume(old(State()), id, now)
      ensures links == if consumed then old(links)[id := old(links)[id].(usedAt := Some(now))] else old(links)
    {
      consumed := id in links && links[id].usedAt.None? && links[id].invalidatedAt.None? && links[id].expiresAt > now;
      if consumed {
        links := links[id := links[id].(usedAt := Some(now))];
      }
    }

    /** Check, strength, consume, write, end the sessions: in that order. */
    method SetPasswordWithToken(id: TokenId, purpose: Purpose, password: Password, weak: bool, now: Time)
      returns (outcome: Result<UserId, SetPasswordFailure>)
      modifies this
      ensures disabled == old(disabled)
      ensures outcome == match CheckLink(old(State()), id, purpose, now)
                         case Err(failure) => Err(LinkFailed(failure))
                         case Ok(user) => if weak then Err(WeakPassword) else Ok(user)
      ensures outcome.Err? ==> State() == old(State())
      ensures outcome.Ok? ==>
                && outcome.value == old(links)[id].user
                && links == old(links)[id := old(links)[id].(usedAt := Some(now))]
                && passwords == old(passwords)[outcome.value := password]
                && endedSessions == old(endedSessions) + [outcome.value]
    {
      if id !in links || links[id].purpose != purpose {
        return Err(LinkFailed(Unknown));
      }
      var link := links[id];
      if link.usedAt.Some? {
        return Err(LinkFailed(Used));
      }
      if link.invalidatedAt.Some? {
        return Err(LinkFailed(Outdated));
      }
      if link.expiresAt <= now {
        return Err(LinkFailed(Expired));
      }
      if link.user in disabled {
        return Err(LinkFailed(Disabled));
      }
      if weak {
        return Err(WeakPassword);
      }
      var consumed := ConsumeCredentialToken(id, now);
      if !consumed {
        return Err(LinkFailed(Used));
      }
      passwords := passwords[link.user := password];
      endedSessions := endedSessions + [link.user];
      outcome := Ok(link.user);
    }
  }
}
