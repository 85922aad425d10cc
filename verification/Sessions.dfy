/** Server-side sessions: sliding expiry under a hard cap, and immediate revocation. */
module Sessions {
  import opened Prelude

  type Time = int // milliseconds
  type UserId = nat
  type Token = nat // as stored: its hash, taken as collision free

  const MAX_AGE: Time := 7 * 24 * 60 * 60 * 1000
  const ABSOLUTE_MAX_AGE: Time := 30 * 24 * 60 * 60 * 1000
  const TOUCH_INTERVAL: Time := 60 * 60 * 1000

  datatype Session = Session(user: UserId, createdAt: Time, lastSeenAt: Time, expiresAt: Time, revokedAt: Option<Time>)
  datatype Db = Db(sessions: map<Token, Session>, disabled: set<UserId>)

  const EMPTY := Db(map[], {})

  function Min(a: Time, b: Time): Time {
    if a < b then a else b
  }

  // ---------------------------------------------------------------------- one request

  /** `LateTouch` is the write of a resolution whose read came earlier, other requests having slipped in between. */
  datatype Request =
    | Create(token: Token, user: UserId, now: Time)
    | Resolve(token: Token, now: Time)
    | LateTouch(token: Token, now: Time)
    | Revoke(token: Token, now: Time)
    | RevokeAll(user: UserId, now: Time)
    | SetDisabled(user: UserId, disabled: bool)

  /** A new token is never one already stored. */
  predicate Possible(db: Db, request: Request) {
    request.Create? ==> request.token !in db.sessions
  }

  /** Whom a token stands for at `now`; `None` covers every failure. */
  function Resolved(db: Db, token: Token, now: Time): Option<UserId> {
    if token !in db.sessions then None
    else
      var s := db.sessions[token];
      if s.revokedAt.Some? then None
      else if s.expiresAt <= now then None
      else if s.createdAt + ABSOLUTE_MAX_AGE <= now then None
      else if s.user in db.disabled then None
      else Some(s.user)
  }

  function Slid(s: Session, now: Time): Session {
    s.(lastSeenAt := now, expiresAt := Min(now + MAX_AGE, s.createdAt + ABSOLUTE_MAX_AGE))
  }

  function Touched(s: Session, now: Time): Session {
    if now - s.lastSeenAt > TOUCH_INTERVAL then Slid(s, now) else s
  }

  function Revoked(s: Session, now: Time): Session {
    if s.revokedAt.None? then s.(revokedAt := Some(now)) else s
  }

  function After(db: Db, request: Request): Db {
    match request
    case Create(token, user, now) =>
      db.(sessions := db.sessions[token := Session(user, now, now, now + MAX_AGE, None)])
    case Resolve(token, now) =>
      if Resolved(db, token, now).None? then db
      else db.(sessions := db.sessions[token := Touched(db.sessions[token], now)])
    case LateTouch(token, now) =>
      if token !in db.sessions then db
      else db.(sessions := db.sessions[token := Slid(db.sessions[token], now)])
    case Revoke(token, now) =>
      if token !in db.sessions then db
      else db.(sessions := db.sessions[token := Revoked(db.sessions[token], now)])
    case RevokeAll(user, now) =>
      db.(sessions := map t | t in db.sessions ::
            if db.sessions[t].user == user then Revoked(db.sessions[t], now) else db.sessions[t])
    case SetDisabled(user, disabled) =>
      db.(disabled := if disabled then db.disabled + {user} else db.disabled - {user})
  }

  function Run(requests: seq<Request>): Db {
    if requests == [] then EMPTY else After(Run(requests[..|requests| - 1]), requests[|requests| - 1])
  }

  ghost predicate AllPossible(requests: seq<Request>) {
    forall k :: 0 <= k < |requests| ==> Possible(Run(requests[..k]), requests[k])
  }

  // ---------------------------------------------------------------------- the service

  class SessionStore {
    var db: Db

    constructor ()
      ensures db == EMPTY
    {
      db := EMPTY;
    }

    method CreateSession(token: Token, user: UserId, now: Time) returns (expiresAt: Time)
      requires token !in db.sessions
      modifies this
      ensures db == After(old(db), Create(token, user, now)) && expiresAt == db.sessions[token].expiresAt
    {
      expiresAt := now + MAX_AGE;
      db := db.(sessions := db.sessions[token := Session(user, now, now, expiresAt, None)]);
    }

    method ResolveSession(token: Token, now: Time) returns (user: Option<UserId>)
      modifies this
      ensures user == Resolved(old(db), token, now) && db == After(old(db), Resolve(token, now))
    {
      if token !in db.sessions {
        return None;
      }
      var s := db.sessions[token];
      if s.revokedAt.Some? || s.expiresAt <= now || s.createdAt + ABSOLUTE_MAX_AGE <= now || s.user in db.disabled {
        return None;
      }
      if now - s.lastSeenAt > TOUCH_INTERVAL {
        var slidTo, absoluteEnd := now + MAX_AGE, s.createdAt + ABSOLUTE_MAX_AGE;
        db := db.(sessions := db.sessions[token := s.(lastSeenAt := now, expiresAt := if slidTo < absoluteEnd then slidTo else absoluteEnd)]);
      }
      assert db.sessions == After(old(db), Resolve(token, now)).sessions;
      user := Some(s.user);
    }

    method RevokeSession(token: Token, now: Time)
      modifies this
      ensures db == After(old(db), Revoke(token, now))
    {
      if token in db.sessions && db.sessions[token].revokedAt.None? {
        db := db.(sessions := db.sessions[token := db.sessions[token].(revokedAt := Some(now))]);
      }
      assert db.sessions == After(old(db), Revoke(token, now)).sessions;
    }

    method RevokeAllSessions(user: UserId, now: Time) returns (count: nat)
      modifies this
      ensures db == After(old(db), RevokeAll(user, now))
      ensures count == |set t | t in old(db).sessions && old(db).sessions[t].user == user && old(db).sessions[t].revokedAt.None?|
    {
      var live := set t | t in db.sessions && db.sessions[t].user == user && db.sessions[t].revokedAt.None?;
      count := |live|;
      db := db.(sessions := map t | t in db.sessions :: if t in live then db.sessions[t].(revokedAt := Some(now)) else db.sessions[t]);
      assert db.sessions == After(old(db), RevokeAll(user, now)).sessions;
    }
  }

  // ---------------------------------------------------------------------- what every run keeps

  ghost predicate ExpiryExact(db: Db) {
    forall t :: t in db.sessions ==>
      db.sessions[t].expiresAt == Min(db.sessions[t].lastSeenAt + 7 * 86400000, db.sessions[t].createdAt + 30 * 86400000)
  }

  /** In every run the expiry is exactly the sooner of last use plus seven days and creation plus thirty. */
  lemma {:induction false} ExpiryIsExact(requests: seq<Request>)
    ensures ExpiryExact(Run(requests))
  {
    if requests != [] {
      ExpiryIsExact(requests[..|requests| - 1]);
    }
  }

  /** So a token resolves exactly while it is not revoked, its user enabled, and both limits lie ahead. */
  lemma ResolvesIff(requests: seq<Request>, token: Token, now: Time)
    ensures var db := Run(requests);
            Resolved(db, token, now).Some? <==>
              && token in db.sessions
              && db.sessions[token].revokedAt.None?
              && db.sessions[token].user !in db.disabled
              && now < db.sessions[token].lastSeenAt + 7 * 86400000
              && now < db.sessions[token].createdAt + 30 * 86400000
  {
    ExpiryIsExact(requests);
  }

  /** A use more than an hour after the last one recorded is recorded, and moves the expiry; a sooner one writes nothing. */
  lemma UseIsRecordedIff(requests: seq<Request>, token: Token, now: Time)
    requires Resolved(Run(requests), token, now).Some?
    ensures var db := Run(requests);
            var s := db.sessions[token];
            After(db, Resolve(token, now)) ==
              if now <= s.lastSeenAt + 3600000 then db
              else db.(sessions := db.sessions[token := Session(s.user, s.createdAt, now,
                if now + 7 * 86400000 <= s.createdAt + 30 * 86400000 then now + 7 * 86400000 else s.createdAt + 30 * 86400000, None)])
  {}

  /** A session's owner and creation never change, and a revocation is never undone. */
  lemma {:induction false} SessionsStay(first: seq<Request>, second: seq<Request>, token: Token)
    requires AllPossible(first + second) && token in Run(first).sessions
    ensures token in Run(first + second).sessions
    ensures Run(first + second).sessions[token].user == Run(first).sessions[token].user
    ensures Run(first + second).sessions[token].createdAt == Run(first).sessions[token].createdAt
    ensures Run(first).sessions[token].revokedAt.Some? ==>
              Run(first + second).sessions[token].revokedAt == Run(first).sessions[token].revokedAt
    decreases |second|
  {
    if second == [] {
      assert first + second == first;
    } else {
      var before, last := Split(first, second);
      SessionsStay(first, before, token);
      hide Run, AllPossible;
      SessionStays(Run(first + before), last, token);
    }
  }

  /** The last request of a run, and what comes before it. */
  lemma Split(first: seq<Request>, second: seq<Request>) returns (before: seq<Request>, last: Request)
    requires second != [] && AllPossible(first + second)
    ensures second == before + [last] && |before| < |second|
    ensures AllPossible(first + before) && Possible(Run(first + before), last)
    ensures Run(first + second) == After(Run(first + before), last)
  {
    before, last := second[..|second| - 1], second[|second| - 1];
    assert second == before + [last];
    assert first + second == (first + before) + [last];
    RunSplits(first + before, last);
  }

  lemma RunSplits(requests: seq<Request>, last: Request)
    requires AllPossible(requests + [last])
    ensures AllPossible(requests) && Possible(Run(requests), last)
    ensures Run(requests + [last]) == After(Run(requests), last)
  {
    var all := requests + [last];
    assert all[..|all| - 1] == requests;
    hide After, Possible;
    assert Possible(Run(all[..|requests|]), all[|requests|]);
    forall k | 0 <= k < |requests| ensures Possible(Run(requests[..k]), requests[k]) {
      assert requests[..k] == all[..k] && requests[k] == all[k];
    }
  }

  lemma SessionStays(db: Db, request: Request, token: Token)
    requires Possible(db, request) && token in db.sessions
    ensures var v := After(db, request);
            && token in v.sessions
            && v.sessions[token].user == db.sessions[token].user
            && v.sessions[token].createdAt == db.sessions[token].createdAt
            && (db.sessions[token].revokedAt.Some? ==> v.sessions[token].revokedAt == db.sessions[token].revokedAt)
  {}

  /** After a revocation, by token or of all the user's sessions, nothing ever resolves again. */
  lemma RevokedNeverResolves(first: seq<Request>, revocation: Request, second: seq<Request>, token: Token, now: Time)
    requires AllPossible(first + [revocation] + second) && token in Run(first).sessions
    requires || (revocation.Revoke? && revocation.token == token)
             || (revocation.RevokeAll? && revocation.user == Run(first).sessions[token].user)
    ensures Resolved(Run(first + [revocation] + second), token, now) == None
  {
    assert (first + [revocation])[..|first|] == first;
    SessionsStay(first + [revocation], second, token);
  }

  /** No use, however frequent, carries a session to its thirtieth day. */
  lemma CapIsHard(first: seq<Request>, second: seq<Request>, token: Token, now: Time)
    requires AllPossible(first + second) && token in Run(first).sessions
    requires now >= Run(first).sessions[token].createdAt + 30 * 86400000
    ensures Resolved(Run(first + second), token, now) == None
  {
    SessionsStay(first, second, token);
  }

  // ---------------------------------------------------------------------- staying alive

  function Max(a: Time, b: Time): Time {
    if a < b then b else a
  }

  /** The latest moment `token` was created or presented at; a late touch stands for a presentation at its own time. */
  function LastUse(requests: seq<Request>, token: Token): Time {
    if requests == [] then 0
    else
      match requests[|requests| - 1]
      case Create(t, _, now) => if t == token then now else LastUse(requests[..|requests| - 1], token)
      case Resolve(t, now) =>
        var earlier := LastUse(requests[..|requests| - 1], token);
        if t == token then Max(earlier, now) else earlier
      case LateTouch(t, at) =>
        var earlier := LastUse(requests[..|requests| - 1], token);
        if t == token then Max(earlier, at) else earlier
      case _ => LastUse(requests[..|requests| - 1], token)
  }

  /**
   Nothing ends the session, it is presented again within seven days less the touch interval, and requests
   that overlap are by no more than that interval out of order.
   */
  ghost predicate KeptInUse(first: seq<Request>, second: seq<Request>, token: Token, user: UserId) {
    forall k :: 0 <= k < |second| ==> Keeps(second[k], LastUse(first + second[..k], token), token, user)
  }

  predicate Keeps(request: Request, lastUse: Time, token: Token, user: UserId) {
    match request
    case Create(_, _, _) => true
    case Resolve(t, now) => t == token ==> lastUse - 3600000 <= now < lastUse + 7 * 86400000 - 3600000
    case LateTouch(t, at) => t == token ==> lastUse - 3600000 <= at < lastUse + 7 * 86400000 - 3600000
    case Revoke(t, _) => t != token
    case RevokeAll(u, _) => u != user
    case SetDisabled(u, disabled) => !disabled || u != user
  }

  /** Last seen is at most one touch interval behind the last use. */
  ghost predicate Alive(db: Db, token: Token, user: UserId, created: Time, lastUse: Time) {
    && token in db.sessions
    && user !in db.disabled
    && var s := db.sessions[token];
       && s.user == user && s.createdAt == created && s.revokedAt.None?
       && s.lastSeenAt <= lastUse
       && (lastUse < created + 30 * 86400000 ==> lastUse - 3600000 <= s.lastSeenAt)
  }

  function NextUse(request: Request, token: Token, lastUse: Time): Time {
    match request
    case Create(t, _, now) => if t == token then now else lastUse
    case Resolve(t, now) => if t == token then Max(lastUse, now) else lastUse
    case LateTouch(t, at) => if t == token then Max(lastUse, at) else lastUse
    case _ => lastUse
  }

  lemma RequestKeepsAlive(db: Db, request: Request, token: Token, user: UserId, created: Time, lastUse: Time)
    requires ExpiryExact(db) && Alive(db, token, user, created, lastUse) && Possible(db, request) && Keeps(request, lastUse, token, user)
    ensures Alive(After(db, request), token, user, created,
                  NextUse(request, token, lastUse))
  {}

  lemma {:induction false} UseKeepsAlive(first: seq<Request>, second: seq<Request>, token: Token, user: UserId, created: Time)
    requires first != [] && first[|first| - 1] == Create(token, user, created) && user !in Run(first).disabled
    requires AllPossible(first + second) && KeptInUse(first, second, token, user)
    ensures Alive(Run(first + second), token, user, created, LastUse(first + second, token))
  {
    if second == [] {
      assert first + second == first;
    } else {
      var before, last := Split(first, second);
      assert second[..|before|] == before && second[|before|] == last;
      KeptPrefix(first, second, before, token, user);
      UseKeepsAlive(first, before, token, user, created);
      ExpiryIsExact(first + before);
      assert first + second == (first + before) + [last];
      LastUseOf(first + before, last, token);
      hide Run, AllPossible, KeptInUse, LastUse;
      RequestKeepsAlive(Run(first + before), last, token, user, created, LastUse(first + before, token));
    }
  }

  lemma KeptPrefix(first: seq<Request>, second: seq<Request>, before: seq<Request>, token: Token, user: UserId)
    requires KeptInUse(first, second, token, user) && |before| < |second| && before == second[..|before|]
    ensures KeptInUse(first, before, token, user)
    ensures Keeps(second[|before|], LastUse(first + before, token), token, user)
  {
    hide LastUse, Keeps;
    assert second[..|before|] == before;
    forall k | 0 <= k < |before| ensures Keeps(before[k], LastUse(first + before[..k], token), token, user) {
      assert before[..k] == second[..k] && before[k] == second[k];
    }
  }

  lemma LastUseOf(requests: seq<Request>, last: Request, token: Token)
    ensures LastUse(requests + [last], token) == NextUse(last, token, LastUse(requests, token))
  {
    assert (requests + [last])[..|requests + [last]| - 1] == requests;
  }

  /** A session of an enabled user, not revoked and used often enough, resolves until its thirtieth day. */
  lemma UsedSessionResolves(first: seq<Request>, second: seq<Request>, token: Token, user: UserId, created: Time, now: Time)
    requires first != [] && first[|first| - 1] == Create(token, user, created) && user !in Run(first).disabled
    requires AllPossible(first + second) && KeptInUse(first, second, token, user)
    requires LastUse(first + second, token) <= now < LastUse(first + second, token) + 7 * 86400000 - 3600000
    requires now < created + 30 * 86400000
    ensures Resolved(Run(first + second), token, now) == Some(user)
  {
    UseKeepsAlive(first, second, token, user, created);
    ExpiryIsExact(first + second);
  }
}
