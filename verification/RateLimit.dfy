/** The token bucket, over reals in place of floats, under one configuration. */
module RateLimit {
  type Key = nat
  type Time = int // milliseconds

  const SWEEP_INTERVAL: Time := 10 * 60 * 1000

  datatype Config = Config(capacity: real, refillPerSecond: real)
  datatype Bucket = Bucket(tokens: real, lastRefill: Time)
  datatype State = State(buckets: map<Key, Bucket>, lastSweep: Time)
  datatype Answer = Answer(allowed: bool, remaining: int, retryAfterSeconds: int)

  predicate Sensible(config: Config) {
    config.capacity >= 1.0 && config.refillPerSecond > 0.0
  }

  function MinReal(a: real, b: real): real {
    if a < b then a else b
  }

  function Ceil(x: real): int {
    -((-x).Floor)
  }

  function MaxInt(a: int, b: int): int {
    if a < b then b else a
  }

  function Seconds(from: Time, to: Time): real {
    (to - from) as real / 1000.0
  }

  /** What an interval is worth in tokens; a clock running backwards earns nothing. */
  function Earned(config: Config, from: Time, to: Time): real {
    if to <= from then 0.0 else Seconds(from, to) * config.refillPerSecond
  }

  function Refilled(config: Config, bucket: Bucket, now: Time): Bucket {
    Bucket(MinReal(config.capacity, bucket.tokens + Earned(config, bucket.lastRefill, now)), now)
  }

  function BucketOf(config: Config, s: State, key: Key, now: Time): Bucket {
    if key in s.buckets then s.buckets[key] else Bucket(config.capacity, now)
  }

  /** The tokens a request for `key` would find at `now`. */
  function Level(config: Config, s: State, key: Key, now: Time): real {
    Refilled(config, BucketOf(config, s, key, now), now).tokens
  }

  predicate IsFull(config: Config, bucket: Bucket, now: Time) {
    bucket.tokens + Seconds(bucket.lastRefill, now) * config.refillPerSecond >= config.capacity
  }

  /** Full buckets are dropped once an interval has passed. */
  function Swept(config: Config, s: State, now: Time): State {
    if now - s.lastSweep < SWEEP_INTERVAL then s
    else State(map k | k in s.buckets && !IsFull(config, s.buckets[k], now) :: s.buckets[k], now)
  }

  function AnswerAt(config: Config, level: real): Answer
    requires config.refillPerSecond > 0.0
  {
    if level < 1.0 then Answer(false, 0, MaxInt(1, Ceil((1.0 - level) / config.refillPerSecond)))
    else Answer(true, (level - 1.0).Floor, 0)
  }

  function Charged(config: Config, s: State, key: Key, now: Time): State {
    var level := Level(config, s, key, now);
    s.(buckets := s.buckets[key := Bucket(if level < 1.0 then level else level - 1.0, now)])
  }

  // ---------------------------------------------------------------------- the limiter

  class Limiter {
    const config: Config
    var buckets: map<Key, Bucket>
    var lastSweep: Time

    ghost function Abstract(): State
      reads this
    {
      State(buckets, lastSweep)
    }

    constructor (config: Config, now: Time)
      ensures this.config == config && Abstract() == State(map[], now)
    {
      this.config := config;
      buckets, lastSweep := map[], now;
    }

    method Sweep(now: Time)
      modifies this
      ensures Abstract() == Swept(config, old(Abstract()), now)
      ensures now < old(lastSweep) + 600000 ==> buckets == old(buckets)
      ensures now >= old(lastSweep) + 600000 ==>
                forall k :: k in old(buckets) ==>
                  (k in buckets <==>
                     old(buckets)[k].tokens + (now - old(buckets)[k].lastRefill) as real / 1000.0 * config.refillPerSecond < config.capacity)
    {
      if now - lastSweep < SWEEP_INTERVAL {
        return;
      }
      lastSweep := now;
      var remaining := buckets.Keys;
      while remaining != {}
        invariant remaining <= old(buckets).Keys
        invariant forall k :: k in buckets ==> k in old(buckets) && buckets[k] == old(buckets)[k]
        invariant forall k :: k in old(buckets) ==> (k in buckets <==> k in remaining || !IsFull(config, old(buckets)[k], now))
        invariant lastSweep == now
      {
        hide IsFull;
        var key :| key in remaining;
        if IsFull(config, buckets[key], now) {
          buckets := buckets - {key};
        }
        remaining := remaining - {key};
      }
      assert buckets == Swept(config, old(Abstract()), now).buckets;
    }

    method CheckRateLimit(key: Key, now: Time) returns (answer: Answer)
      requires config.refillPerSecond > 0.0
      modifies this
      ensures var swept := Swept(config, old(Abstract()), now);
              Abstract() == Charged(config, swept, key, now) && answer == AnswerAt(config, Level(config, swept, key, now))
    {
      Sweep(now);
      var bucket := if key in buckets then buckets[key] else Bucket(config.capacity, now);
      var elapsed := if now <= bucket.lastRefill then 0.0 else (now - bucket.lastRefill) as real / 1000.0;
      var tokens := bucket.tokens + elapsed * config.refillPerSecond;
      if config.capacity < tokens {
        tokens := config.capacity;
      }
      if tokens < 1.0 {
        var deficit := 1.0 - tokens;
        buckets := buckets[key := Bucket(tokens, now)];
        return Answer(false, 0, MaxInt(1, Ceil(deficit / config.refillPerSecond)));
      }
      tokens := tokens - 1.0;
      buckets := buckets[key := Bucket(tokens, now)];
      answer := Answer(true, tokens.Floor, 0);
    }
  }

  // ---------------------------------------------------------------------- runs

  datatype Request = Request(key: Key, now: Time)

  function Step(config: Config, s: State, r: Request, sweeping: bool): State {
    Charged(config, if sweeping then Swept(config, s, r.now) else s, r.key, r.now)
  }

  /** The state after `requests`; `sweeping` says whether full buckets are evicted on the way. */
  function Run(config: Config, s: State, requests: seq<Request>, sweeping: bool): State {
    if requests == [] then s
    else Step(config, Run(config, s, requests[..|requests| - 1], sweeping), requests[|requests| - 1], sweeping)
  }

  /** The answer `r` gets in state `s`. */
  function Given(config: Config, s: State, r: Request, sweeping: bool): Answer
    requires config.refillPerSecond > 0.0
  {
    AnswerAt(config, Level(config, if sweeping then Swept(config, s, r.now) else s, r.key, r.now))
  }

  function Clock(start: Time, requests: seq<Request>): Time {
    if requests == [] then start else requests[|requests| - 1].now
  }

  /** The clock does not run backwards. */
  predicate InOrder(start: Time, requests: seq<Request>) {
    forall k :: 0 <= k < |requests| ==> Clock(start, requests[..k]) <= requests[k].now
  }

  /** No bucket lies in the future or holds more than it can. */
  predicate WellFormed(config: Config, s: State, now: Time) {
    forall k :: k in s.buckets ==> s.buckets[k].lastRefill <= now && 0.0 <= s.buckets[k].tokens <= config.capacity
  }

  lemma StepKeepsWellFormed(config: Config, s: State, r: Request, sweeping: bool, clock: Time)
    requires Sensible(config) && WellFormed(config, s, clock) && clock <= r.now
    ensures WellFormed(config, Step(config, s, r, sweeping), r.now)
  {
    EarnedIsPositive(config, BucketOf(config, s, r.key, r.now).lastRefill, r.now);
    EarnedIsPositive(config, BucketOf(config, Swept(config, s, r.now), r.key, r.now).lastRefill, r.now);
    hide Earned;
  }

  lemma EarnedIsPositive(config: Config, from: Time, to: Time)
    requires Sensible(config)
    ensures Earned(config, from, to) >= 0.0
  {}

  lemma EarnedAdds(config: Config, a: Time, b: Time, c: Time)
    requires Sensible(config) && a <= b <= c
    ensures Earned(config, a, c) == Earned(config, a, b) + Earned(config, b, c)
  {
    assert Seconds(a, c) == Seconds(a, b) + Seconds(b, c);
  }

  // ---------------------------------------------------------------------- eviction is unobservable

  /** Two states nobody can tell apart from `now` on. */
  ghost predicate Alike(config: Config, a: State, b: State, now: Time) {
    forall key, later :: now <= later ==> Level(config, a, key, later) == Level(config, b, key, later)
  }

  /** Sweeping changes no level, now or later. */
  lemma SweepIsInvisible(config: Config, s: State, now: Time)
    requires Sensible(config) && WellFormed(config, s, now)
    ensures Alike(config, Swept(config, s, now), s, now)
  {
    var swept := Swept(config, s, now);
    forall key, later | now <= later ensures Level(config, swept, key, later) == Level(config, s, key, later) {
      if key in s.buckets && key !in swept.buckets {
        var bucket := s.buckets[key];
        EarnedAdds(config, bucket.lastRefill, now, later);
        EarnedIsPositive(config, now, later);
        assert Earned(config, bucket.lastRefill, now) == Seconds(bucket.lastRefill, now) * config.refillPerSecond;
        assert Earned(config, later, later) == 0.0;
      }
    }
  }

  /** Charging states that are alike leaves them alike. */
  lemma ChargeKeepsAlike(config: Config, a: State, b: State, key: Key, now: Time)
    requires Alike(config, a, b, now)
    ensures Alike(config, Charged(config, a, key, now), Charged(config, b, key, now), now)
  {
    assert Level(config, a, key, now) == Level(config, b, key, now);
    var v, w := Charged(config, a, key, now), Charged(config, b, key, now);
    forall k, later | now <= later ensures Level(config, v, k, later) == Level(config, w, k, later) {
      if k != key {
        assert Level(config, a, k, later) == Level(config, b, k, later);
      }
    }
  }

  /** However buckets are evicted on the way, every request gets the answer it would get without. */
  lemma {:induction false} EvictionIsUnobservable(config: Config, s: State, requests: seq<Request>, start: Time, next: Request)
    requires Sensible(config) && WellFormed(config, s, start) && InOrder(start, requests + [next])
    ensures WellFormed(config, Run(config, s, requests, true), Clock(start, requests))
    ensures Alike(config, Run(config, s, requests, true), Run(config, s, requests, false), Clock(start, requests))
    ensures Given(config, Run(config, s, requests, true), next, true) == Given(config, Run(config, s, requests, false), next, false)
  {
    var clock := Clock(start, requests);
    var swept, plain := Run(config, s, requests, true), Run(config, s, requests, false);
    assert (requests + [next])[..|requests|] == requests && clock <= next.now;
    if requests != [] {
      var before, last := requests[..|requests| - 1], requests[|requests| - 1];
      Earlier(start, requests, next);
      EvictionIsUnobservable(config, s, before, start, last);
      var u, v := Run(config, s, before, true), Run(config, s, before, false);
      StepKeepsWellFormed(config, u, last, true, Clock(start, before));
      LaterIsWellFormed(config, u, Clock(start, before), last.now);
      SweepIsInvisible(config, u, last.now);
      AlikeChain(config, Swept(config, u, last.now), u, v, Clock(start, before), last.now);
      ChargeKeepsAlike(config, Swept(config, u, last.now), v, last.key, last.now);
    }
    LaterIsWellFormed(config, swept, clock, next.now);
    SweepIsInvisible(config, swept, next.now);
    AlikeChain(config, Swept(config, swept, next.now), swept, plain, clock, next.now);
    assert Level(config, Swept(config, swept, next.now), next.key, next.now) == Level(config, plain, next.key, next.now);
  }

  lemma Earlier(start: Time, requests: seq<Request>, next: Request)
    requires requests != [] && InOrder(start, requests + [next])
    ensures var before, last := requests[..|requests| - 1], requests[|requests| - 1];
            requests == before + [last] && InOrder(start, before + [last]) && Clock(start, before) <= last.now == Clock(start, requests)
  {
    var before, last := requests[..|requests| - 1], requests[|requests| - 1];
    var all := requests + [next];
    assert requests == before + [last];
    forall k | 0 <= k < |requests| ensures Clock(start, requests[..k]) <= requests[k].now {
      assert requests[..k] == all[..k] && requests[k] == all[k];
    }
    assert requests[..|before|] == before;
  }

  lemma LaterIsWellFormed(config: Config, s: State, clock: Time, later: Time)
    requires WellFormed(config, s, clock) && clock <= later
    ensures WellFormed(config, s, later)
  {}

  lemma AlikeChain(config: Config, a: State, b: State, c: State, clock: Time, later: Time)
    requires Alike(config, a, b, later) && Alike(config, b, c, clock) && clock <= later
    ensures Alike(config, a, c, later)
  {
    hide Level;
    forall key, t | later <= t ensures Level(config, a, key, t) == Level(config, c, key, t) {
      assert Level(config, a, key, t) == Level(config, b, key, t);
      assert Level(config, b, key, t) == Level(config, c, key, t);
    }
  }

  // ---------------------------------------------------------------------- how much is let through

  /** How many of `requests` were for `key` and allowed. */
  function Allowed(config: Config, s: State, requests: seq<Request>, key: Key): nat
    requires config.refillPerSecond > 0.0
  {
    if requests == [] then 0
    else
      var before, last := requests[..|requests| - 1], requests[|requests| - 1];
      Allowed(config, s, before, key) +
      if last.key == key && Given(config, Run(config, s, before, true), last, true).allowed then 1 else 0
  }

  /** A level rises no faster than tokens are earned, and stays within bounds. */
  lemma LevelGrows(config: Config, s: State, key: Key, now: Time, later: Time)
    requires Sensible(config) && WellFormed(config, s, now) && now <= later
    ensures 0.0 <= Level(config, s, key, now) <= Level(config, s, key, later) <= config.capacity
    ensures Level(config, s, key, later) <= Level(config, s, key, now) + Earned(config, now, later)
  {
    var from := BucketOf(config, s, key, now).lastRefill;
    EarnedIsPositive(config, now, later);
    EarnedIsPositive(config, from, now);
    if key in s.buckets {
      EarnedAdds(config, from, now, later);
    }
    hide Earned;
    assert Earned(config, now, now) == 0.0 && Earned(config, later, later) == 0.0 by { NothingEarned(config, now); NothingEarned(config, later); }
  }

  lemma NothingEarned(config: Config, now: Time)
    ensures Earned(config, now, now) == 0.0
  {}

  /** A request takes one token from its own key when allowed, and nothing from any other. */
  lemma StepTakesOne(config: Config, s: State, r: Request, key: Key)
    requires Sensible(config) && WellFormed(config, s, r.now)
    ensures var taken := if r.key == key && Given(config, s, r, true).allowed then 1.0 else 0.0;
            Level(config, Step(config, s, r, true), key, r.now) == Level(config, s, key, r.now) - taken
  {
    SweepIsInvisible(config, s, r.now);
    var swept := Swept(config, s, r.now);
    assert Level(config, swept, r.key, r.now) == Level(config, s, r.key, r.now);
    assert Level(config, swept, key, r.now) == Level(config, s, key, r.now);
    LevelGrows(config, s, r.key, r.now, r.now);
    NothingEarned(config, r.now);
    hide Swept, Earned;
  }

  lemma {:induction false} LevelIsSpent(config: Config, s: State, requests: seq<Request>, start: Time, key: Key)
    requires Sensible(config) && WellFormed(config, s, start) && InOrder(start, requests)
    ensures start <= Clock(start, requests) && WellFormed(config, Run(config, s, requests, true), Clock(start, requests))
    ensures Level(config, Run(config, s, requests, true), key, Clock(start, requests)) + Allowed(config, s, requests, key) as real
            <= Level(config, s, key, start) + Earned(config, start, Clock(start, requests))
  {
    if requests == [] {
      NothingEarned(config, start);
    } else {
      var before, last := requests[..|requests| - 1], requests[|requests| - 1];
      OrderedPrefix(start, requests);
      LevelIsSpent(config, s, before, start, key);
      var u, clock := Run(config, s, before, true), Clock(start, before);
      StepKeepsWellFormed(config, u, last, true, clock);
      LaterIsWellFormed(config, u, clock, last.now);
      LevelGrows(config, u, key, clock, last.now);
      StepTakesOne(config, u, last, key);
      EarnedAdds(config, start, clock, last.now);
      hide Level, Earned, Step, Given;
    }
  }

  lemma OrderedPrefix(start: Time, requests: seq<Request>)
    requires requests != [] && InOrder(start, requests)
    ensures var before, last := requests[..|requests| - 1], requests[|requests| - 1];
            InOrder(start, before) && Clock(start, before) <= last.now == Clock(start, requests)
  {
    var before := requests[..|requests| - 1];
    forall k | 0 <= k < |before| ensures Clock(start, before[..k]) <= before[k].now {
      assert before[..k] == requests[..k] && before[k] == requests[k];
    }
  }

  /** Over any stretch of requests, a key is allowed at most the capacity plus what the elapsed time earns. */
  lemma AllowedIsBounded(config: Config, s: State, requests: seq<Request>, start: Time, key: Key)
    requires Sensible(config) && WellFormed(config, s, start) && InOrder(start, requests)
    ensures Allowed(config, s, requests, key) as real
            <= config.capacity + (Clock(start, requests) - start) as real / 1000.0 * config.refillPerSecond
  {
    hide *;
    SecondsAreMilliseconds(start, Clock(start, requests), config.refillPerSecond);
    AllowedIsWithin(config, s, requests, start, key);
  }

  lemma SecondsAreMilliseconds(from: Time, to: Time, rate: real)
    ensures Seconds(from, to) * rate == (to - from) as real / 1000.0 * rate
  {}

  lemma AllowedIsWithin(config: Config, s: State, requests: seq<Request>, start: Time, key: Key)
    requires Sensible(config) && WellFormed(config, s, start) && InOrder(start, requests)
    ensures Allowed(config, s, requests, key) as real <= config.capacity + Seconds(start, Clock(start, requests)) * config.refillPerSecond
  {
    hide Level, Earned, Run, Allowed, Seconds, WellFormed, InOrder, Clock;
    var clock := Clock(start, requests);
    LevelIsSpent(config, s, requests, start, key);
    LevelGrows(config, s, key, start, start);
    LevelGrows(config, Run(config, s, requests, true), key, clock, clock);
    EarnedIsElapsed(config, start, clock);
  }

  lemma EarnedIsElapsed(config: Config, from: Time, to: Time)
    requires from <= to
    ensures Earned(config, from, to) == Seconds(from, to) * config.refillPerSecond
  {}

  // ---------------------------------------------------------------------- waiting as told

  /** Other clients' requests leave a key's level alone. */
  lemma {:induction false} OthersDoNotMatter(config: Config, s: State, requests: seq<Request>, start: Time, key: Key, later: Time)
    requires Sensible(config) && WellFormed(config, s, start) && InOrder(start, requests)
    requires forall k :: 0 <= k < |requests| ==> requests[k].key != key
    requires Clock(start, requests) <= later
    ensures WellFormed(config, Run(config, s, requests, true), Clock(start, requests))
    ensures Level(config, Run(config, s, requests, true), key, later) == Level(config, s, key, later)
  {
    if requests != [] {
      var before, last := requests[..|requests| - 1], requests[|requests| - 1];
      OrderedPrefix(start, requests);
      OthersDoNotMatter(config, s, before, start, key, later);
      var u, clock := Run(config, s, before, true), Clock(start, before);
      StepKeepsWellFormed(config, u, last, true, clock);
      LaterIsWellFormed(config, u, clock, last.now);
      SweepIsInvisible(config, u, last.now);
      assert Level(config, Swept(config, u, last.now), key, later) == Level(config, u, key, later);
      assert Level(config, Charged(config, Swept(config, u, last.now), last.key, last.now), key, later)
          == Level(config, Swept(config, u, last.now), key, later);
    }
  }

  /** A refused client that waits as long as it was told, and asks nothing meanwhile, is let through. */
  lemma WaitingAsToldSuffices(config: Config, s: State, r: Request, others: seq<Request>, now: Time)
    requires Sensible(config) && WellFormed(config, s, r.now) && !Given(config, s, r, true).allowed
    requires InOrder(r.now, others) && (forall k :: 0 <= k < |others| ==> others[k].key != r.key)
    requires Clock(r.now, others) <= now && now >= r.now + 1000 * Given(config, s, r, true).retryAfterSeconds
    ensures Given(config, Run(config, Step(config, s, r, true), others, true), Request(r.key, now), true).allowed
  {
    hide Swept, Run, Earned, Level, Given, Seconds, Step, WellFormed, InOrder, Clock, BucketOf;
    var refused := Step(config, s, r, true);
    var told := Given(config, s, r, true).retryAfterSeconds;
    var v := Run(config, refused, others, true);
    StepKeepsWellFormed(config, s, r, true, r.now);
    OthersDoNotMatter(config, refused, others, r.now, r.key, now);
    LaterIsWellFormed(config, v, Clock(r.now, others), now);
    RefusedKeepsLevel(config, s, r);
    EarnedIsElapsed(config, r.now, now);
    DeficitIsEarned(config, refused.buckets[r.key].tokens, told, r.now, now);
    LevelOfKept(config, refused, r.key, now);
    LevelDecides(config, v, r.key, now);
  }

  lemma LevelOfKept(config: Config, s: State, key: Key, now: Time)
    requires key in s.buckets
    ensures Level(config, s, key, now) == MinReal(config.capacity, s.buckets[key].tokens + Earned(config, s.buckets[key].lastRefill, now))
  {}

  lemma LevelDecides(config: Config, s: State, key: Key, now: Time)
    requires Sensible(config) && WellFormed(config, s, now)
    ensures Given(config, s, Request(key, now), true).allowed <==> Level(config, s, key, now) >= 1.0
  {
    SweepIsInvisible(config, s, now);
    assert Level(config, Swept(config, s, now), key, now) == Level(config, s, key, now);
  }

  lemma RefusedKeepsLevel(config: Config, s: State, r: Request)
    requires config.refillPerSecond > 0.0 && !Given(config, s, r, true).allowed
    ensures r.key in Step(config, s, r, true).buckets
    ensures var bucket := Step(config, s, r, true).buckets[r.key];
            && bucket.lastRefill == r.now && bucket.tokens < 1.0
            && Given(config, s, r, true).retryAfterSeconds == MaxInt(1, Ceil((1.0 - bucket.tokens) / config.refillPerSecond))
  {
    hide Swept, Level;
  }

  lemma DeficitIsEarned(config: Config, level: real, told: int, from: Time, to: Time)
    requires Sensible(config) && level < 1.0 && told == MaxInt(1, Ceil((1.0 - level) / config.refillPerSecond))
    requires to >= from + 1000 * told
    ensures told >= 1 && level + Seconds(from, to) * config.refillPerSecond >= 1.0
  {
    var wait := (1.0 - level) / config.refillPerSecond;
    assert wait * config.refillPerSecond == 1.0 - level;
    assert told as real >= wait;
    assert Seconds(from, to) >= told as real;
    Scales(wait, Seconds(from, to), config.refillPerSecond);
  }

  lemma Scales(a: real, b: real, rate: real)
    requires a <= b && rate > 0.0
    ensures a * rate <= b * rate
  {}
  /** And one second less is not enough, unless that second is the one everybody is told to wait. */
  lemma WaitingLessDoesNot(config: Config, s: State, r: Request, now: Time)
    requires Sensible(config) && WellFormed(config, s, r.now) && !Given(config, s, r, true).allowed
    requires r.now <= now <= r.now + 1000 * (Given(config, s, r, true).retryAfterSeconds - 1)
    ensures !Given(config, Step(config, s, r, true), Request(r.key, now), true).allowed
  {
    hide Swept, Earned, Level, Given, Seconds, Step, WellFormed, BucketOf;
    var refused := Step(config, s, r, true);
    var told := Given(config, s, r, true).retryAfterSeconds;
    StepKeepsWellFormed(config, s, r, true, r.now);
    LaterIsWellFormed(config, refused, r.now, now);
    RefusedKeepsLevel(config, s, r);
    EarnedIsElapsed(config, r.now, now);
    DeficitIsNotEarned(config, refused.buckets[r.key].tokens, told, r.now, now);
    LevelOfKept(config, refused, r.key, now);
    LevelDecides(config, refused, r.key, now);
  }

  lemma DeficitIsNotEarned(config: Config, level: real, told: int, from: Time, to: Time)
    requires Sensible(config) && level < 1.0 && told == MaxInt(1, Ceil((1.0 - level) / config.refillPerSecond))
    requires from <= to <= from + 1000 * (told - 1)
    ensures level + Seconds(from, to) * config.refillPerSecond < 1.0
  {
    var wait := (1.0 - level) / config.refillPerSecond;
    assert wait * config.refillPerSecond == 1.0 - level && wait > 0.0;
    assert (told - 1) as real < wait;
    assert Seconds(from, to) <= (told - 1) as real;
    ScalesStrictly(Seconds(from, to), wait, config.refillPerSecond);
  }

  lemma ScalesStrictly(a: real, b: real, rate: real)
    requires a < b && rate > 0.0
    ensures a * rate < b * rate
  {}

  /** An idle client costs nothing: whatever a bucket held, the first sweep after it has had the time to fill drops it. */
  lemma IdleBucketIsDropped(config: Config, s: State, key: Key, now: Time)
    requires Sensible(config) && WellFormed(config, s, now) && now >= s.lastSweep + 600000
    requires key in s.buckets && (now - s.buckets[key].lastRefill) as real / 1000.0 * config.refillPerSecond >= config.capacity
    ensures key !in Swept(config, s, now).buckets
  {}

  // ---------------------------------------------------------------------- what remains

  /** The same request, over and over in the same millisecond. */
  function Repeated(r: Request, count: nat): seq<Request> {
    seq(count, _ => r)
  }

  lemma OneMore(config: Config, s: State, r: Request, count: nat)
    ensures Run(config, s, Repeated(r, count + 1), true) == Step(config, Run(config, s, Repeated(r, count), true), r, true)
  {
    assert Repeated(r, count + 1)[..count] == Repeated(r, count);
  }

  /** Each repetition takes one token, until less than one is left. */
  lemma {:induction false} RepeatsTakeOneEach(config: Config, s: State, r: Request, count: nat, whole: nat)
    requires Sensible(config) && WellFormed(config, s, r.now)
    requires whole as real <= Level(config, s, r.key, r.now) < (whole + 1) as real
    ensures WellFormed(config, Run(config, s, Repeated(r, count), true), r.now)
    ensures Level(config, Run(config, s, Repeated(r, count), true), r.key, r.now)
            == Level(config, s, r.key, r.now) - (if count < whole then count else whole) as real
  {
    hide Level, Swept, Step, WellFormed, Given;
    if count == 0 {
      assert Repeated(r, 0) == [];
    } else {
      var before := Run(config, s, Repeated(r, count - 1), true);
      RepeatsTakeOneEach(config, s, r, count - 1, whole);
      OneMore(config, s, r, count - 1);
      StepKeepsWellFormed(config, before, r, true, r.now);
      StepTakesOne(config, before, r, r.key);
      LevelDecides(config, before, r.key, r.now);
    }
  }

  lemma RemainingIsWhole(config: Config, s: State, r: Request)
    requires Sensible(config) && WellFormed(config, s, r.now)
    ensures var remaining, level := Given(config, s, r, true).remaining, Level(config, Step(config, s, r, true), r.key, r.now);
            remaining >= 0 && remaining as real <= level < (remaining + 1) as real
  {
    SweepIsInvisible(config, s, r.now);
    assert Level(config, Swept(config, s, r.now), r.key, r.now) == Level(config, s, r.key, r.now);
    LevelGrows(config, s, r.key, r.now, r.now);
    StepTakesOne(config, s, r, r.key);
    hide Swept, Level, Step;
  }

  /** What an answer says remains is how many more requests would be let through at once, neither more nor fewer. */
  lemma RemainingIsAllowed(config: Config, s: State, r: Request, count: nat)
    requires Sensible(config) && WellFormed(config, s, r.now)
    ensures Given(config, Run(config, Step(config, s, r, true), Repeated(r, count), true), r, true).allowed
            <==> count < Given(config, s, r, true).remaining
  {
    var after := Step(config, s, r, true);
    StepKeepsWellFormed(config, s, r, true, r.now);
    RemainingIsWhole(config, s, r);
    RepeatsTakeOneEach(config, after, r, count, Given(config, s, r, true).remaining);
    LevelDecides(config, Run(config, after, Repeated(r, count), true), r.key, r.now);
    hide Level, Swept, Step, Run, WellFormed;
  }
}
