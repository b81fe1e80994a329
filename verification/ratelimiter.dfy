/**
  The per-IP rate limiter: one token bucket for each client address, and a sweep that forgets
  clients not seen for longer than a lifetime.  Time and tokens are exact reals.
 */
module RateLimiter {
  type Ip = string

  /** A bucket that holds `tokens` as of instant `last`, and refills continuously up to the burst. */
  datatype Bucket = Bucket(tokens: real, last: real)
  datatype Entry = Entry(bucket: Bucket, lastSeen: real)

  /**
    `skew` bounds the time between the two clock readings of one call: the one kept as lastSeen,
    and the later one that the bucket itself takes.
   */
  datatype Config = Config(rps: real, burst: int, ttl: real, skew: real) {
    predicate Valid() {
      rps >= 0.0 && ttl > 0.0 && skew >= 0.0
    }
  }

  datatype Event =
    | Request(ip: Ip, seen: real, at: real)
    | Sweep(now: real)

  type Limiters = map<Ip, Entry>

  // ---------------------------------------------------------------- the bucket

  function Least(a: real, b: real): real {
    if a <= b then a else b
  }

  function Full(cfg: Config): real {
    cfg.burst as real
  }

  function Refill(cfg: Config, time: real): real {
    time * cfg.rps
  }

  function Advanced(b: Bucket, cfg: Config, at: real): real {
    var elapsed := if at < b.last then 0.0 else at - b.last;
    Least(Full(cfg), b.tokens + Refill(cfg, elapsed))
  }

  predicate Admits(b: Bucket, cfg: Config, at: real) {
    1 <= cfg.burst && Advanced(b, cfg, at) - 1.0 >= 0.0
  }

  /** Allow: one token if there is one; a refused call leaves the bucket as it was. */
  function Taken(b: Bucket, cfg: Config, at: real): Bucket {
    if Admits(b, cfg, at) then Bucket(Advanced(b, cfg, at) - 1.0, at) else b
  }

  // ---------------------------------------------------------------- the limiter

  function EntryFor(m: Limiters, cfg: Config, ip: Ip, at: real): Bucket {
    if ip in m then m[ip].bucket else Bucket(Full(cfg), at)
  }

  function Allowed(m: Limiters, cfg: Config, ip: Ip, at: real): bool {
    Admits(EntryFor(m, cfg, ip, at), cfg, at)
  }

  function AfterRequest(m: Limiters, cfg: Config, ip: Ip, seen: real, at: real): Limiters {
    m[ip := Entry(Taken(EntryFor(m, cfg, ip, at), cfg, at), seen)]
  }

  function AfterSweep(m: Limiters, cfg: Config, now: real): Limiters {
    map ip | ip in m && !(now - m[ip].lastSeen > cfg.ttl) :: m[ip]
  }

  /** With `evict` false the sweeps are ignored: the limiter that never forgets a client. */
  function Run(cfg: Config, trace: seq<Event>, evict: bool): Limiters {
    if trace == [] then map[]
    else
      var m := Run(cfg, trace[..|trace|-1], evict);
      match trace[|trace|-1]
      case Request(ip, seen, at) => AfterRequest(m, cfg, ip, seen, at)
      case Sweep(now) => if evict then AfterSweep(m, cfg, now) else m
  }

  /** The answer to event number n, if it is a request. */
  function Answer(cfg: Config, trace: seq<Event>, n: nat, evict: bool): bool
    requires n < |trace|
  {
    trace[n].Request? && Allowed(Run(cfg, trace[..n], evict), cfg, trace[n].ip, trace[n].at)
  }

  function Clock(trace: seq<Event>): real {
    if trace == [] then 0.0
    else
      var c := Clock(trace[..|trace|-1]);
      match trace[|trace|-1]
      case Request(_, _, at) => at
      case Sweep(now) => if now > c then now else c
  }

  /**
    Requests are served one at a time, so their readings are ordered; a sweep reads the clock
    before it waits for the lock, so its reading may be old, but never later than the next request.
   */
  ghost predicate WellTimed(cfg: Config, trace: seq<Event>) {
    trace == [] ||
    (&& WellTimed(cfg, trace[..|trace|-1])
     && match trace[|trace|-1]
        case Request(_, seen, at) => Clock(trace[..|trace|-1]) <= seen <= at <= seen + cfg.skew
        case Sweep(_) => true)
  }

  // ---------------------------------------------------------------- one request and one sweep in plain terms

  /**
    What a client has at an instant: a whole burst if it is unknown, else what was left and what was
    refilled since, but no more than the burst.
   */
  ghost function Available(m: Limiters, cfg: Config, ip: Ip, at: real): real {
    if ip !in m then cfg.burst as real
    else
      var b := m[ip].bucket;
      var refilled := if at <= b.last then b.tokens else b.tokens + (at - b.last) * cfg.rps;
      if refilled < cfg.burst as real then refilled else cfg.burst as real
  }

  /**
    A request is let through exactly if a whole token is available, and then takes one; otherwise it
    takes none.  Either way the client was last seen now, and no other client is touched.
   */
  lemma RequestEffect(m: Limiters, cfg: Config, ip: Ip, seen: real, at: real)
    ensures Allowed(m, cfg, ip, at) <==> cfg.burst >= 1 && Available(m, cfg, ip, at) >= 1.0
    ensures var m' := AfterRequest(m, cfg, ip, seen, at);
            && m' - {ip} == m - {ip} && ip in m' && m'[ip].lastSeen == seen
            && m'[ip].bucket == (if Allowed(m, cfg, ip, at) then Bucket(Available(m, cfg, ip, at) - 1.0, at)
                                 else if ip in m then m[ip].bucket else Bucket(cfg.burst as real, at))
  {
    if ip in m && at <= m[ip].bucket.last {
      assert Refill(cfg, 0.0) == 0.0;
    }
    FullBucketStays(cfg, at);
  }

  lemma FullBucketStays(cfg: Config, at: real)
    ensures Advanced(Bucket(Full(cfg), at), cfg, at) == Full(cfg)
  {
  }

  /** A sweep forgets exactly the clients not seen for longer than the lifetime, and alters no other entry. */
  lemma SweepEffect(m: Limiters, cfg: Config, now: real, ip: Ip)
    ensures ip in AfterSweep(m, cfg, now) <==> ip in m && now - m[ip].lastSeen <= cfg.ttl
    ensures ip in AfterSweep(m, cfg, now) ==> AfterSweep(m, cfg, now)[ip] == m[ip]
  {
  }

  class IPRateLimiter {
    const cfg: Config
    var limiters: Limiters

    constructor (cfg: Config)
      ensures this.cfg == cfg && limiters == map[]
    {
      this.cfg := cfg;
      limiters := map[];
    }

    method Allow(ip: Ip, seen: real, at: real) returns (ok: bool)
      modifies this
      ensures ok == Allowed(old(limiters), cfg, ip, at)
      ensures limiters == AfterRequest(old(limiters), cfg, ip, seen, at)
    {
      if ip !in limiters {
        limiters := limiters[ip := Entry(Bucket(cfg.burst as real, at), seen)];
      }
      var bucket := limiters[ip].bucket;
      ok := Admits(bucket, cfg, at);
      limiters := limiters[ip := Entry(Taken(bucket, cfg, at), seen)];
    }

    /** One sweep of the cleaner: every key is visited, in no particular order. */
    method Clean(now: real)
      modifies this
      ensures limiters == AfterSweep(old(limiters), cfg, now)
    {
      var keys := limiters.Keys;
      ghost var before := limiters;
      while |keys| > 0
        invariant keys <= before.Keys
        invariant forall ip :: ip in limiters <==>
          ip in before && (ip in keys || !(now - before[ip].lastSeen > cfg.ttl))
        invariant forall ip :: ip in limiters ==> limiters[ip] == before[ip]
        decreases |keys|
      {
        assert (forall x :: x !in keys) ==> keys == {};
        var ip :| ip in keys;
        if ip in limiters && now - limiters[ip].lastSeen > cfg.ttl {
          limiters := limiters - {ip};
        }
        keys := keys - {ip};
      }
    }
  }

  // ---------------------------------------------------------------- levels

  /** The tokens a client would find at instant t; an unknown client finds a full bucket. */
  function Level(m: Limiters, cfg: Config, ip: Ip, t: real): real {
    if ip in m then Advanced(m[ip].bucket, cfg, t) else Full(cfg)
  }

  /** A level after `wait` more seconds without a request. */
  function Refilled(cfg: Config, level: real, wait: real): real {
    Least(Full(cfg), level + Refill(cfg, wait))
  }

  ghost predicate BucketOk(e: Entry, cfg: Config, clock: real) {
    && Least(0.0, Full(cfg)) <= e.bucket.tokens <= Full(cfg)
    && e.bucket.last <= clock && e.bucket.last <= e.lastSeen + cfg.skew
  }

  ghost predicate LimitersOk(m: Limiters, cfg: Config, clock: real) {
    forall ip :: ip in m ==> BucketOk(m[ip], cfg, clock)
  }

  lemma RefillAdds(cfg: Config, a: real, b: real)
    ensures Refill(cfg, a + b) == Refill(cfg, a) + Refill(cfg, b)
    ensures Refill(cfg, 0.0) == 0.0
  {
  }

  lemma RefillNonNegative(cfg: Config, a: real)
    requires cfg.Valid() && a >= 0.0
    ensures Refill(cfg, a) >= 0.0
  {
  }

  /** Waiting composes: the level at t2 is the level at t1 plus what is refilled in between, capped. */
  lemma LevelLater(m: Limiters, cfg: Config, ip: Ip, t1: real, t2: real)
    requires cfg.Valid() && LimitersOk(m, cfg, t1) && t1 <= t2
    ensures Level(m, cfg, ip, t2) == Refilled(cfg, Level(m, cfg, ip, t1), t2 - t1)
  {
    RefillNonNegative(cfg, t2 - t1);
    if ip in m {
      RefillAdds(cfg, t1 - m[ip].bucket.last, t2 - t1);
      assert t2 - m[ip].bucket.last == (t1 - m[ip].bucket.last) + (t2 - t1);
    }
  }

  lemma RequestLevel(m: Limiters, cfg: Config, ip: Ip, seen: real, at: real, other: Ip)
    requires cfg.Valid() && LimitersOk(m, cfg, at) && seen <= at <= seen + cfg.skew
    ensures Allowed(m, cfg, ip, at) <==> 1 <= cfg.burst && Level(m, cfg, ip, at) >= 1.0
    ensures var m' := AfterRequest(m, cfg, ip, seen, at);
            && LimitersOk(m', cfg, at)
            && Level(m', cfg, other, at) ==
                 Level(m, cfg, other, at) - if other == ip && Allowed(m, cfg, ip, at) then 1.0 else 0.0
  {
    assert ip in m ==> BucketOk(m[ip], cfg, at);
    var b := EntryFor(m, cfg, ip, at);
    assert Advanced(b, cfg, at) == Level(m, cfg, ip, at) by { RefillAdds(cfg, 0.0, 0.0); }
    if ip in m { RefillNonNegative(cfg, at - m[ip].bucket.last); }
    RefillAdds(cfg, 0.0, 0.0);
  }

  /** The bucket will be full when its client has been idle for a whole lifetime. */
  ghost predicate EntriesRefill(m: Limiters, cfg: Config) {
    forall ip :: ip in m ==>
      m[ip].bucket.tokens + Refill(cfg, m[ip].lastSeen + cfg.ttl - m[ip].bucket.last) >= Full(cfg)
  }

  /** A client idle for longer than the lifetime has a full bucket, so forgetting it changes no level. */
  lemma SweepLevel(m: Limiters, cfg: Config, now: real, clock: real, ip: Ip)
    requires cfg.Valid() && LimitersOk(m, cfg, clock) && now <= clock && EntriesRefill(m, cfg)
    ensures Level(AfterSweep(m, cfg, now), cfg, ip, clock) == Level(m, cfg, ip, clock)
  {
    if ip in m && now - m[ip].lastSeen > cfg.ttl {
      assert BucketOk(m[ip], cfg, clock);
      var due, last := m[ip].lastSeen + cfg.ttl, m[ip].bucket.last;
      RefillNonNegative(cfg, clock - due);
      RefillAdds(cfg, due - last, clock - due);
      assert clock - last == (due - last) + (clock - due);
    }
  }

  /**
    The least that a bucket can hold after a request was let through `time` after it was seen: what
    was refilled meanwhile, less the token taken.
   */
  function Spare(cfg: Config, time: real): real {
    var refilled := Least(Full(cfg), Refill(cfg, time)) - 1.0;
    if refilled < 0.0 then 0.0 else refilled
  }

  /**
    A bucket refills to the burst before its client can be forgotten, even if the last request was
    let through as late after it was seen as can be.  This is what keeps evictions from being seen.
   */
  ghost predicate RefillsInTime(cfg: Config) {
    cfg.burst < 1 || Spare(cfg, cfg.skew) + Refill(cfg, cfg.ttl - cfg.skew) >= Full(cfg)
  }

  /** As long as less than a token is refilled between the two readings, this is rps * (ttl - skew) >= burst. */
  lemma RefillsInTimeMeans(cfg: Config)
    requires cfg.Valid() && cfg.burst >= 1 && cfg.rps * cfg.skew <= 1.0
    ensures RefillsInTime(cfg) <==> cfg.rps * (cfg.ttl - cfg.skew) >= cfg.burst as real
  {
  }

  lemma SpareSlope(cfg: Config, early: real, late: real)
    requires cfg.Valid() && 0.0 <= early <= late
    ensures Spare(cfg, late) - Spare(cfg, early) <= Refill(cfg, late - early)
    ensures Spare(cfg, late) <= Refill(cfg, late)
  {
    RefillAdds(cfg, early, late - early);
    assert early + (late - early) == late;
    RefillNonNegative(cfg, early);
    RefillNonNegative(cfg, late - early);
  }

  lemma RequestKeepsRefill(m: Limiters, cfg: Config, ip: Ip, seen: real, at: real)
    requires cfg.Valid() && cfg.burst >= 1 && RefillsInTime(cfg)
    requires LimitersOk(m, cfg, seen) && seen <= at <= seen + cfg.skew && EntriesRefill(m, cfg)
    ensures EntriesRefill(AfterRequest(m, cfg, ip, seen, at), cfg)
  {
    var late := at - seen;
    RefillAdds(cfg, cfg.ttl - cfg.skew, cfg.skew - late);
    assert (cfg.ttl - cfg.skew) + (cfg.skew - late) == cfg.ttl - late == seen + cfg.ttl - at;
    RefillNonNegative(cfg, cfg.skew - late);
    SpareSlope(cfg, late, cfg.skew);
    assert Spare(cfg, late) + Refill(cfg, seen + cfg.ttl - at) >= Full(cfg);
    if ip in m {
      assert BucketOk(m[ip], cfg, seen);
      KnownClientRefills(cfg, m[ip].bucket, seen, at);
    } else {
      assert Spare(cfg, late) <= Full(cfg) - 1.0;
    }
  }

  lemma KnownClientRefills(cfg: Config, b: Bucket, seen: real, at: real)
    requires cfg.Valid() && cfg.burst >= 1 && RefillsInTime(cfg)
    requires 0.0 <= b.tokens <= Full(cfg) && b.last <= seen <= at <= seen + cfg.skew
    requires Spare(cfg, at - seen) + Refill(cfg, seen + cfg.ttl - at) >= Full(cfg)
    ensures var b' := Taken(b, cfg, at); b'.tokens + Refill(cfg, seen + cfg.ttl - b'.last) >= Full(cfg)
  {
    RefillNonNegative(cfg, seen - b.last);
    if Admits(b, cfg, at) {
      RefillAdds(cfg, seen - b.last, at - seen);
      assert (seen - b.last) + (at - seen) == at - b.last;
      assert Advanced(b, cfg, at) - 1.0 >= Spare(cfg, at - seen);
    } else {
      SpareSlope(cfg, 0.0, cfg.skew);
      RefillAdds(cfg, cfg.ttl - cfg.skew, cfg.skew);
      assert (cfg.ttl - cfg.skew) + cfg.skew == cfg.ttl;
      RefillAdds(cfg, seen - b.last, cfg.ttl);
      assert (seen - b.last) + cfg.ttl == seen + cfg.ttl - b.last;
    }
  }

  lemma LimitersOkLater(m: Limiters, cfg: Config, t1: real, t2: real)
    requires LimitersOk(m, cfg, t1) && t1 <= t2
    ensures LimitersOk(m, cfg, t2)
  {
  }

  lemma {:induction false} RunOk(cfg: Config, trace: seq<Event>, evict: bool)
    requires cfg.Valid() && WellTimed(cfg, trace)
    ensures LimitersOk(Run(cfg, trace, evict), cfg, Clock(trace))
  {
    if trace != [] {
      var front := trace[..|trace|-1];
      RunOk(cfg, front, evict);
      LimitersOkLater(Run(cfg, front, evict), cfg, Clock(front), Clock(trace));
      match trace[|trace|-1] {
        case Request(ip, seen, at) =>
          RequestLevel(Run(cfg, front, evict), cfg, ip, seen, at, ip);
        case Sweep(now) =>
      }
    }
  }

  lemma {:induction false} RunRefills(cfg: Config, trace: seq<Event>)
    requires cfg.Valid() && cfg.burst >= 1 && RefillsInTime(cfg) && WellTimed(cfg, trace)
    ensures EntriesRefill(Run(cfg, trace, true), cfg)
  {
    if trace != [] {
      var front := trace[..|trace|-1];
      RunRefills(cfg, front);
      RunOk(cfg, front, true);
      match trace[|trace|-1] {
        case Request(ip, seen, at) =>
          LimitersOkLater(Run(cfg, front, true), cfg, Clock(front), seen);
          RequestKeepsRefill(Run(cfg, front, true), cfg, ip, seen, at);
        case Sweep(now) =>
      }
    }
  }

  lemma {:induction false} SameLevels(cfg: Config, trace: seq<Event>, ip: Ip)
    requires cfg.Valid() && cfg.burst >= 1 && WellTimed(cfg, trace) && RefillsInTime(cfg)
    ensures Level(Run(cfg, trace, true), cfg, ip, Clock(trace)) == Level(Run(cfg, trace, false), cfg, ip, Clock(trace))
  {
    if trace != [] {
      var front := trace[..|trace|-1];
      var m, p := Run(cfg, front, true), Run(cfg, front, false);
      var c, c' := Clock(front), Clock(trace);
      RunOk(cfg, front, true);
      RunOk(cfg, front, false);
      LimitersOkLater(m, cfg, c, c');
      LimitersOkLater(p, cfg, c, c');
      SameLevels(cfg, front, ip);
      LevelLater(m, cfg, ip, c, c');
      LevelLater(p, cfg, ip, c, c');
      match trace[|trace|-1] {
        case Request(other, seen, at) =>
          SameLevels(cfg, front, other);
          LevelLater(m, cfg, other, c, c');
          LevelLater(p, cfg, other, c, c');
          RequestLevel(m, cfg, other, seen, at, ip);
          RequestLevel(p, cfg, other, seen, at, ip);
        case Sweep(now) =>
          RunRefills(cfg, front);
          SweepLevel(m, cfg, now, c', ip);
      }
    }
  }

  /**
    Eviction is invisible: when the bucket refills before its client can be forgotten, every request of every
    trace, with any number of sweeps at any moments, is answered as if nothing were ever evicted.
   */
  lemma EvictionInvisible(cfg: Config, trace: seq<Event>, n: nat)
    requires cfg.Valid() && WellTimed(cfg, trace) && RefillsInTime(cfg) && n < |trace|
    ensures Answer(cfg, trace, n, true) == Answer(cfg, trace, n, false)
  {
    if trace[n].Request? && cfg.burst >= 1 {
      WellTimedPrefix(cfg, trace, n + 1);
      assert trace[..n+1][..n] == trace[..n];
      AnswerByLevel(cfg, trace[..n], trace[n], true);
      AnswerByLevel(cfg, trace[..n], trace[n], false);
      SameLevels(cfg, trace[..n], trace[n].ip);
    }
  }

  /** An answer depends on nothing but the client's level when the last event was served. */
  lemma AnswerByLevel(cfg: Config, trace: seq<Event>, r: Event, evict: bool)
    requires cfg.Valid() && WellTimed(cfg, trace) && r.Request?
    requires Clock(trace) <= r.seen <= r.at <= r.seen + cfg.skew
    ensures Allowed(Run(cfg, trace, evict), cfg, r.ip, r.at) <==>
            && 1 <= cfg.burst
            && Refilled(cfg, Level(Run(cfg, trace, evict), cfg, r.ip, Clock(trace)), r.at - Clock(trace)) >= 1.0
  {
    var m := Run(cfg, trace, evict);
    RunOk(cfg, trace, evict);
    LevelLater(m, cfg, r.ip, Clock(trace), r.at);
    LimitersOkLater(m, cfg, Clock(trace), r.at);
    RequestLevel(m, cfg, r.ip, r.seen, r.at, r.ip);
  }

  lemma {:induction false} WellTimedPrefix(cfg: Config, trace: seq<Event>, n: nat)
    requires WellTimed(cfg, trace) && n <= |trace|
    ensures WellTimed(cfg, trace[..n])
  {
    if n < |trace| {
      WellTimedPrefix(cfg, trace[..|trace|-1], n);
      assert trace[..|trace|-1][..n] == trace[..n];
    } else {
      assert trace[..n] == trace;
    }
  }

  // ---------------------------------------------------------------- the window bound

  /** The requests of one client allowed at instants from s to t. */
  ghost function AllowedWithin(cfg: Config, trace: seq<Event>, ip: Ip, s: real, t: real, evict: bool): int {
    if trace == [] then 0
    else
      var n := |trace| - 1;
      AllowedWithin(cfg, trace[..n], ip, s, t, evict)
      + if trace[n].Request? && trace[n].ip == ip && s <= trace[n].at <= t && Answer(cfg, trace, n, evict) then 1 else 0
  }

  /** Between two instants a level rises by no more than the refill. */
  lemma LevelRises(m: Limiters, cfg: Config, ip: Ip, s: real, t1: real, t2: real)
    requires cfg.Valid() && LimitersOk(m, cfg, t1) && s <= t1 <= t2
    ensures Level(m, cfg, ip, t2) - Refill(cfg, t2 - s) <= Level(m, cfg, ip, t1) - Refill(cfg, t1 - s)
  {
    LevelLater(m, cfg, ip, t1, t2);
    RefillAdds(cfg, t2 - t1, t1 - s);
    assert t2 - s == (t2 - t1) + (t1 - s);
  }

  /** The level after the last event, seen from the limiter before it: one token less if the client was allowed. */
  lemma LastEventLevel(cfg: Config, trace: seq<Event>, ip: Ip)
    requires cfg.Valid() && WellTimed(cfg, trace) && trace != []
    ensures var n := |trace| - 1;
            var p := Run(cfg, trace[..n], false);
            Level(Run(cfg, trace, false), cfg, ip, Clock(trace)) ==
              Level(p, cfg, ip, Clock(trace))
              - if trace[n].Request? && trace[n].ip == ip && Answer(cfg, trace, n, false) then 1.0 else 0.0
  {
    var n := |trace| - 1;
    var p := Run(cfg, trace[..n], false);
    RunOk(cfg, trace[..n], false);
    LimitersOkLater(p, cfg, Clock(trace[..n]), Clock(trace));
    if trace[n].Request? {
      RequestLevel(p, cfg, trace[n].ip, trace[n].seen, trace[n].at, ip);
    }
  }

  lemma LevelCapped(m: Limiters, cfg: Config, ip: Ip, t: real)
    ensures Level(m, cfg, ip, t) <= Full(cfg)
  {
  }

  /** What was allowed since s, plus what is left now, is at most the burst plus what was refilled since s. */
  lemma {:induction false} SpentPlusLevel(cfg: Config, trace: seq<Event>, ip: Ip, s: real, t: real)
    requires cfg.Valid() && WellTimed(cfg, trace)
    ensures Clock(trace) < s ==> AllowedWithin(cfg, trace, ip, s, t, false) == 0
    ensures Clock(trace) >= s ==>
            AllowedWithin(cfg, trace, ip, s, t, false) as real + Level(Run(cfg, trace, false), cfg, ip, Clock(trace))
            <= Full(cfg) + Refill(cfg, Clock(trace) - s)
  {
    if trace == [] {
      if 0.0 >= s { RefillNonNegative(cfg, 0.0 - s); }
    } else {
      var front := trace[..|trace|-1];
      var p := Run(cfg, front, false);
      SpentPlusLevel(cfg, front, ip, s, t);
      LastEventLevel(cfg, trace, ip);
      RunOk(cfg, front, false);
      if Clock(front) >= s {
        LevelRises(p, cfg, ip, s, Clock(front), Clock(trace));
      } else if Clock(trace) >= s {
        LevelCapped(p, cfg, ip, Clock(trace));
        RefillNonNegative(cfg, Clock(trace) - s);
      }
    }
  }

  lemma LevelAtLeastZero(cfg: Config, trace: seq<Event>, ip: Ip, at: real)
    requires cfg.Valid() && WellTimed(cfg, trace) && cfg.burst >= 0 && Clock(trace) <= at
    ensures Level(Run(cfg, trace, false), cfg, ip, at) >= 0.0
  {
    RunOk(cfg, trace, false);
    var p := Run(cfg, trace, false);
    if ip in p {
      assert BucketOk(p[ip], cfg, Clock(trace));
      RefillNonNegative(cfg, at - p[ip].bucket.last);
    }
  }

  /** The bound for the limiter that never forgets, by its token account. */
  lemma {:induction false} PlainWindowBound(cfg: Config, trace: seq<Event>, ip: Ip, s: real, t: real)
    requires cfg.Valid() && WellTimed(cfg, trace) && cfg.burst >= 0 && s <= t
    ensures AllowedWithin(cfg, trace, ip, s, t, false) as real <= Full(cfg) + Refill(cfg, t - s)
  {
    RefillNonNegative(cfg, t - s);
    if trace != [] {
      var now := Clock(trace);
      if now > t {
        // Nothing past t counts, so the bound is that of the shorter trace.
        PlainWindowBound(cfg, trace[..|trace|-1], ip, s, t);
      } else {
        SpentPlusLevel(cfg, trace, ip, s, t);
        LevelAtLeastZero(cfg, trace, ip, now);
        if now >= s {
          RefillNonNegative(cfg, t - now);
          RefillAdds(cfg, now - s, t - now);
          assert t - s == (now - s) + (t - now);
        }
      }
    }
  }

  lemma {:induction false} SameCounts(cfg: Config, trace: seq<Event>, ip: Ip, s: real, t: real)
    requires forall n :: 0 <= n < |trace| ==> Answer(cfg, trace, n, true) == Answer(cfg, trace, n, false)
    ensures AllowedWithin(cfg, trace, ip, s, t, true) == AllowedWithin(cfg, trace, ip, s, t, false)
  {
    if trace != [] {
      var front := trace[..|trace|-1];
      forall n | 0 <= n < |front| ensures Answer(cfg, front, n, true) == Answer(cfg, front, n, false) {
        assert front[..n] == trace[..n];
        assert Answer(cfg, trace, n, true) == Answer(cfg, trace, n, false);
      }
      SameCounts(cfg, front, ip, s, t);
    }
  }

  /**
    The window bound: for each client and each interval, at most burst + rps * length requests are
    allowed, whatever other clients do and whenever the cleaner sweeps.
   */
  lemma WindowBound(cfg: Config, trace: seq<Event>, ip: Ip, s: real, t: real)
    requires cfg.Valid() && WellTimed(cfg, trace) && RefillsInTime(cfg) && cfg.burst >= 0 && s <= t
    ensures AllowedWithin(cfg, trace, ip, s, t, true) as real <= Full(cfg) + Refill(cfg, t - s)
  {
    forall n | 0 <= n < |trace| ensures Answer(cfg, trace, n, true) == Answer(cfg, trace, n, false) {
      EvictionInvisible(cfg, trace, n);
    }
    SameCounts(cfg, trace, ip, s, t);
    PlainWindowBound(cfg, trace, ip, s, t);
  }

  // ---------------------------------------------------------------- the condition is necessary

  function Burst(ip: Ip, at: real, k: nat): seq<Event> {
    if k == 0 then [] else Burst(ip, at, k - 1) + [Request(ip, at, at)]
  }

  /** `trace` has let `k` requests of the client through at instant `at`, on top of `count` before it. */
  ghost predicate Spent(cfg: Config, trace: seq<Event>, ip: Ip, at: real, s: real, t: real, count: int, k: nat) {
    && WellTimed(cfg, trace) && Clock(trace) <= at
    && Level(Run(cfg, trace, true), cfg, ip, at) == Full(cfg) - k as real
    && AllowedWithin(cfg, trace, ip, s, t, true) == count + k
    && (ip in Run(cfg, trace, true) ==> Run(cfg, trace, true)[ip].lastSeen == at)
  }

  lemma SpendOne(cfg: Config, front: seq<Event>, ip: Ip, at: real, s: real, t: real, count: int, k: nat)
    requires cfg.Valid() && Spent(cfg, front, ip, at, s, t, count, k) && s <= at <= t && k < cfg.burst
    ensures Spent(cfg, front + [Request(ip, at, at)], ip, at, s, t, count, k + 1)
  {
    var trace := front + [Request(ip, at, at)];
    assert trace[..|trace|-1] == front;
    RunOk(cfg, front, true);
    LimitersOkLater(Run(cfg, front, true), cfg, Clock(front), at);
    RequestLevel(Run(cfg, front, true), cfg, ip, at, at, ip);
  }

  /** A client the limiter does not know is allowed as many requests at one instant as the burst holds. */
  lemma {:induction false} BurstOfStranger(cfg: Config, before: seq<Event>, ip: Ip, at: real,
                                           s: real, t: real, count: int, k: nat)
    requires cfg.Valid() && Spent(cfg, before, ip, at, s, t, count, 0) && s <= at <= t && k <= cfg.burst
    ensures Spent(cfg, before + Burst(ip, at, k), ip, at, s, t, count, k)
  {
    if k == 0 {
      assert before + [] == before;
    } else {
      BurstOfStranger(cfg, before, ip, at, s, t, count, k - 1);
      SpendOne(cfg, before + Burst(ip, at, k - 1), ip, at, s, t, count, k - 1);
      assert before + Burst(ip, at, k) == before + Burst(ip, at, k - 1) + [Request(ip, at, at)];
    }
  }

  /** A burst, a sweep at `later`, and another burst: the client is forgotten in between. */
  ghost function TwoBursts(cfg: Config, ip: Ip, later: real): seq<Event>
    requires cfg.burst >= 0
  {
    Burst(ip, 0.0, cfg.burst) + [Sweep(later)] + Burst(ip, later, cfg.burst)
  }

  lemma TwoBurstsAllowed(cfg: Config, ip: Ip, later: real)
    requires cfg.Valid() && cfg.burst >= 0 && later > cfg.ttl
    ensures WellTimed(cfg, TwoBursts(cfg, ip, later))
    ensures AllowedWithin(cfg, TwoBursts(cfg, ip, later), ip, 0.0, later, true) == 2 * cfg.burst
  {
    assert Spent(cfg, [], ip, 0.0, 0.0, later, 0, 0);
    BurstOfStranger(cfg, [], ip, 0.0, 0.0, later, 0, cfg.burst);
    var first := Burst(ip, 0.0, cfg.burst);
    assert [] + first == first;
    SweepForgets(cfg, first, ip, later, cfg.burst);
    BurstOfStranger(cfg, first + [Sweep(later)], ip, later, 0.0, later, cfg.burst, cfg.burst);
  }

  lemma SweepForgets(cfg: Config, first: seq<Event>, ip: Ip, later: real, k: nat)
    requires cfg.Valid() && Spent(cfg, first, ip, 0.0, 0.0, later, 0, k) && later > cfg.ttl
    ensures Spent(cfg, first + [Sweep(later)], ip, later, 0.0, later, k, 0)
  {
    var swept := first + [Sweep(later)];
    assert swept[..|swept|-1] == first;
    assert ip !in Run(cfg, swept, true);
  }

  ghost predicate NoSweeps(trace: seq<Event>) {
    forall i :: 0 <= i < |trace| ==> trace[i].Request?
  }

  lemma {:induction false} SameRun(cfg: Config, trace: seq<Event>)
    requires NoSweeps(trace)
    ensures Run(cfg, trace, true) == Run(cfg, trace, false)
  {
    if trace != [] { SameRun(cfg, trace[..|trace|-1]); }
  }

  /** One more request at the end of a trace. */
  lemma TimedOne(cfg: Config, front: seq<Event>, ip: Ip, seen: real, at: real)
    requires WellTimed(cfg, front) && Clock(front) <= seen <= at <= seen + cfg.skew
    ensures WellTimed(cfg, front + [Request(ip, seen, at)]) && Clock(front + [Request(ip, seen, at)]) == at
  {
    assert (front + [Request(ip, seen, at)])[..|front|] == front;
  }

  lemma RunOne(cfg: Config, front: seq<Event>, ip: Ip, seen: real, at: real, evict: bool)
    requires cfg.Valid() && WellTimed(cfg, front) && Clock(front) <= seen <= at <= seen + cfg.skew
    ensures var m, m' := Run(cfg, front, evict), Run(cfg, front + [Request(ip, seen, at)], evict);
            && (Allowed(m, cfg, ip, at) <==> 1 <= cfg.burst && Level(m, cfg, ip, at) >= 1.0)
            && ip in m' && m'[ip].lastSeen == seen
            && Level(m', cfg, ip, at) == Level(m, cfg, ip, at) - if Allowed(m, cfg, ip, at) then 1.0 else 0.0
  {
    assert (front + [Request(ip, seen, at)])[..|front|] == front;
    RunOk(cfg, front, evict);
    LimitersOkLater(Run(cfg, front, evict), cfg, Clock(front), at);
    RequestLevel(Run(cfg, front, evict), cfg, ip, seen, at, ip);
  }

  lemma BurstGrows(front: seq<Event>, ip: Ip, at: real, k: nat)
    requires k > 0
    ensures front + Burst(ip, at, k) == front + Burst(ip, at, k - 1) + [Request(ip, at, at)]
  {
  }

  /** The client was last seen at `seen`, and holds `level` tokens when its request must be through. */
  ghost predicate LeftWith(cfg: Config, trace: seq<Event>, ip: Ip, seen: real, level: real) {
    && WellTimed(cfg, trace) && Clock(trace) <= seen + cfg.skew && NoSweeps(trace)
    && var m := Run(cfg, trace, false);
       ip in m && m[ip].lastSeen == seen && Level(m, cfg, ip, seen + cfg.skew) == level
  }

  /** All requests came at the first instant and have left the client `level` tokens. */
  ghost predicate DrainedTo(cfg: Config, trace: seq<Event>, ip: Ip, level: real) {
    && WellTimed(cfg, trace) && Clock(trace) == 0.0 && NoSweeps(trace)
    && Level(Run(cfg, trace, false), cfg, ip, 0.0) == level
  }

  lemma DrainOne(cfg: Config, front: seq<Event>, ip: Ip, level: real)
    requires cfg.Valid() && cfg.burst >= 1 && DrainedTo(cfg, front, ip, level) && level >= 1.0
    ensures var trace := front + [Request(ip, 0.0, 0.0)];
            && DrainedTo(cfg, trace, ip, level - 1.0)
            && ip in Run(cfg, trace, false) && Run(cfg, trace, false)[ip].lastSeen == 0.0
  {
    TimedOne(cfg, front, ip, 0.0, 0.0);
    RunOne(cfg, front, ip, 0.0, 0.0, false);
  }

  /** `k` requests at the first instant take `k` of the tokens. */
  lemma {:induction false} BurstDrains(cfg: Config, ip: Ip, k: nat)
    requires cfg.Valid() && k <= cfg.burst
    ensures var trace := Burst(ip, 0.0, k);
            && DrainedTo(cfg, trace, ip, Full(cfg) - k as real)
            && (k > 0 ==> ip in Run(cfg, trace, false) && Run(cfg, trace, false)[ip].lastSeen == 0.0)
  {
    if k > 0 {
      BurstDrains(cfg, ip, k - 1);
      DrainOne(cfg, Burst(ip, 0.0, k - 1), ip, Full(cfg) - (k - 1) as real);
    }
  }

  /** The instant after a burst at which just one token will be there when the request is let through. */
  lemma LateInstant(cfg: Config) returns (seen: real)
    requires cfg.Valid() && cfg.rps > 0.0
    ensures seen >= 0.0
    ensures Refill(cfg, seen + cfg.skew) == if Refill(cfg, cfg.skew) < 1.0 then 1.0 else Refill(cfg, cfg.skew)
  {
    if Refill(cfg, cfg.skew) < 1.0 {
      seen := (1.0 - Refill(cfg, cfg.skew)) / cfg.rps;
      assert Refill(cfg, seen) == 1.0 - Refill(cfg, cfg.skew);
      RefillAdds(cfg, seen, cfg.skew);
    } else {
      seen := 0.0;
    }
  }

  /** A client can be left with as little as the spare, and its last request be let through as late as can be. */
  lemma LeftWithSpare(cfg: Config, ip: Ip) returns (trace: seq<Event>, seen: real)
    requires cfg.Valid() && cfg.burst >= 1
    ensures LeftWith(cfg, trace, ip, seen, Spare(cfg, cfg.skew))
  {
    trace := Burst(ip, 0.0, cfg.burst);
    BurstDrains(cfg, ip, cfg.burst);
    if cfg.rps == 0.0 {
      seen := 0.0;
      LeftWithoutRefill(cfg, trace, ip);
    } else {
      seen := LateInstant(cfg);
      LeftByLastRequest(cfg, trace, ip, seen);
      trace := trace + [Request(ip, seen, seen + cfg.skew)];
    }
  }

  lemma LeftWithoutRefill(cfg: Config, trace: seq<Event>, ip: Ip)
    requires cfg.Valid() && cfg.burst >= 1 && cfg.rps == 0.0 && DrainedTo(cfg, trace, ip, 0.0)
    requires ip in Run(cfg, trace, false) && Run(cfg, trace, false)[ip].lastSeen == 0.0
    ensures LeftWith(cfg, trace, ip, 0.0, Spare(cfg, cfg.skew))
  {
    RunOk(cfg, trace, false);
    LevelLater(Run(cfg, trace, false), cfg, ip, 0.0, cfg.skew);
    assert Refill(cfg, cfg.skew) == 0.0;
  }

  lemma LeftByLastRequest(cfg: Config, trace: seq<Event>, ip: Ip, seen: real)
    requires cfg.Valid() && cfg.burst >= 1 && DrainedTo(cfg, trace, ip, 0.0) && 0.0 <= seen
    requires Refill(cfg, seen + cfg.skew) == if Refill(cfg, cfg.skew) < 1.0 then 1.0 else Refill(cfg, cfg.skew)
    ensures LeftWith(cfg, trace + [Request(ip, seen, seen + cfg.skew)], ip, seen, Spare(cfg, cfg.skew))
  {
    var at := seen + cfg.skew;
    RunOk(cfg, trace, false);
    LevelLater(Run(cfg, trace, false), cfg, ip, 0.0, at);
    TimedOne(cfg, trace, ip, seen, at);
    RunOne(cfg, trace, ip, seen, at, false);
  }

  /** An instant past the lifetime at which that client's bucket is still not full. */
  lemma SomewhatLater(cfg: Config) returns (idle: real)
    requires cfg.Valid() && !RefillsInTime(cfg)
    ensures idle > cfg.ttl && idle >= cfg.skew && Spare(cfg, cfg.skew) + Refill(cfg, idle - cfg.skew) < Full(cfg)
  {
    if cfg.ttl < cfg.skew {
      idle := cfg.skew;
    } else if cfg.rps == 0.0 {
      idle := cfg.ttl + 1.0;
    } else {
      var gap := Full(cfg) - Spare(cfg, cfg.skew) - Refill(cfg, cfg.ttl - cfg.skew);
      var extra := gap / (2.0 * cfg.rps);
      assert Refill(cfg, extra) == gap / 2.0;
      RefillAdds(cfg, cfg.ttl - cfg.skew, extra);
      idle := cfg.ttl + extra;
      assert idle - cfg.skew == (cfg.ttl - cfg.skew) + extra;
    }
  }

  ghost predicate SameAnswers(cfg: Config, trace: seq<Event>) {
    forall n: nat :: n < |trace| ==> Answer(cfg, trace, n, true) == Answer(cfg, trace, n, false)
  }

  lemma LastAnswer(cfg: Config, front: seq<Event>, e: Event)
    requires SameAnswers(cfg, front + [e])
    ensures SameAnswers(cfg, front)
    ensures e.Request? ==>
      (Allowed(Run(cfg, front, true), cfg, e.ip, e.at) <==> Allowed(Run(cfg, front, false), cfg, e.ip, e.at))
  {
    var trace := front + [e];
    assert trace[..|front|] == front && trace[|front|] == e;
    assert Answer(cfg, trace, |front|, true) == Answer(cfg, trace, |front|, false);
    forall n: nat | n < |front| ensures Answer(cfg, front, n, true) == Answer(cfg, front, n, false) {
      assert front[..n] == trace[..n];
      assert Answer(cfg, trace, n, true) == Answer(cfg, trace, n, false);
    }
  }

  /** What the client would find with eviction and without. */
  ghost predicate TwoLevels(cfg: Config, trace: seq<Event>, ip: Ip, at: real, evicting: real, plain: real) {
    && WellTimed(cfg, trace) && Clock(trace) <= at
    && Level(Run(cfg, trace, true), cfg, ip, at) == evicting
    && Level(Run(cfg, trace, false), cfg, ip, at) == plain
  }

  lemma CostOne(cfg: Config, front: seq<Event>, ip: Ip, at: real, evicting: real, plain: real)
    requires cfg.Valid() && cfg.burst >= 1 && evicting >= 1.0 && TwoLevels(cfg, front, ip, at, evicting, plain)
    requires SameAnswers(cfg, front + [Request(ip, at, at)])
    ensures TwoLevels(cfg, front + [Request(ip, at, at)], ip, at, evicting - 1.0, plain - 1.0)
  {
    LastAnswer(cfg, front, Request(ip, at, at));
    TimedOne(cfg, front, ip, at, at);
    RunOne(cfg, front, ip, at, at, true);
    RunOne(cfg, front, ip, at, at, false);
  }

  /** If a burst of a forgotten client is answered alike with and without eviction, it costs both limiters as much. */
  lemma {:induction false} BurstCosts(cfg: Config, front: seq<Event>, ip: Ip, at: real, k: nat, plain: real)
    requires cfg.Valid() && k <= cfg.burst && TwoLevels(cfg, front, ip, at, Full(cfg), plain)
    requires SameAnswers(cfg, front + Burst(ip, at, k))
    ensures TwoLevels(cfg, front + Burst(ip, at, k), ip, at, Full(cfg) - k as real, plain - k as real)
  {
    if k == 0 {
      assert front + [] == front;
    } else {
      var before := front + Burst(ip, at, k - 1);
      BurstGrows(front, ip, at, k);
      LastAnswer(cfg, before, Request(ip, at, at));
      BurstCosts(cfg, front, ip, at, k - 1, plain);
      CostOne(cfg, before, ip, at, Full(cfg) - (k - 1) as real, plain - (k - 1) as real);
    }
  }

  /** After the sweep the client is a stranger with eviction, and short of a full bucket without. */
  lemma SweepSeparates(cfg: Config, trace: seq<Event>, ip: Ip, seen: real, level: real, idle: real)
    requires cfg.Valid() && LeftWith(cfg, trace, ip, seen, level) && idle > cfg.ttl && idle >= cfg.skew
    requires level + Refill(cfg, idle - cfg.skew) < Full(cfg)
    ensures var swept, at := trace + [Sweep(seen + idle)], seen + idle;
            && WellTimed(cfg, swept) && Clock(swept) <= at && ip !in Run(cfg, swept, true)
            && Level(Run(cfg, swept, true), cfg, ip, at) == Full(cfg)
            && Level(Run(cfg, swept, false), cfg, ip, at) < Full(cfg)
  {
    var swept, m := trace + [Sweep(seen + idle)], Run(cfg, trace, false);
    assert swept[..|swept|-1] == trace;
    SameRun(cfg, trace);
    RunOk(cfg, trace, false);
    LimitersOkLater(m, cfg, Clock(trace), seen + cfg.skew);
    LevelLater(m, cfg, ip, seen + cfg.skew, seen + idle);
  }

  /** If the bucket may not have refilled in time, forgetting a client lets it through too early. */
  lemma EvictionVisible(cfg: Config, ip: Ip) returns (trace: seq<Event>)
    requires cfg.Valid() && !RefillsInTime(cfg)
    ensures WellTimed(cfg, trace) && !SameAnswers(cfg, trace)
  {
    var first, seen := LeftWithSpare(cfg, ip);
    var idle := SomewhatLater(cfg);
    var swept, at := first + [Sweep(seen + idle)], seen + idle;
    SweepSeparates(cfg, first, ip, seen, Spare(cfg, cfg.skew), idle);
    trace := swept + Burst(ip, at, cfg.burst);
    BurstIsTimed(cfg, swept, ip, at, cfg.burst);
    if SameAnswers(cfg, trace) {
      BurstCosts(cfg, swept, ip, at, cfg.burst, Level(Run(cfg, swept, false), cfg, ip, at));
      LevelAtLeastZero(cfg, trace, ip, at);
    }
  }

  lemma {:induction false} BurstIsTimed(cfg: Config, front: seq<Event>, ip: Ip, at: real, k: nat)
    requires cfg.Valid() && WellTimed(cfg, front) && Clock(front) <= at
    ensures WellTimed(cfg, front + Burst(ip, at, k)) && Clock(front + Burst(ip, at, k)) <= at
  {
    if k == 0 {
      assert front + [] == front;
    } else {
      BurstIsTimed(cfg, front, ip, at, k - 1);
      BurstGrows(front, ip, at, k);
      TimedOne(cfg, front + Burst(ip, at, k - 1), ip, at, at);
    }
  }

  /** Eviction is invisible in every trace if and only if buckets refill in time. */
  lemma EvictionInvisibleIff(cfg: Config)
    requires cfg.Valid()
    ensures (forall trace :: WellTimed(cfg, trace) ==> SameAnswers(cfg, trace)) <==> RefillsInTime(cfg)
  {
    if RefillsInTime(cfg) {
      forall trace, n: nat | WellTimed(cfg, trace) && n < |trace|
        ensures Answer(cfg, trace, n, true) == Answer(cfg, trace, n, false)
      {
        EvictionInvisible(cfg, trace, n);
      }
    } else {
      var trace := EvictionVisible(cfg, "client");
    }
  }

  // ---------------------------------------------------------------- the window bound needs it too

  lemma CountOne(cfg: Config, front: seq<Event>, e: Event, ip: Ip, s: real, t: real)
    ensures AllowedWithin(cfg, front + [e], ip, s, t, true) == AllowedWithin(cfg, front, ip, s, t, true) +
            if e.Request? && e.ip == ip && s <= e.at <= t && Allowed(Run(cfg, front, true), cfg, ip, e.at) then 1 else 0
  {
    assert (front + [e])[..|front|] == front;
  }

  lemma {:induction false} EarlierBurst(cfg: Config, ip: Ip, k: nat, s: real, t: real)
    requires s > 0.0
    ensures AllowedWithin(cfg, Burst(ip, 0.0, k), ip, s, t, true) == 0
  {
    if k > 0 {
      EarlierBurst(cfg, ip, k - 1, s, t);
      CountOne(cfg, Burst(ip, 0.0, k - 1), Request(ip, 0.0, 0.0), ip, s, t);
    }
  }

  lemma LateRequestAllowed(cfg: Config, burst: seq<Event>, ip: Ip, at: real)
    requires cfg.Valid() && cfg.burst >= 1 && DrainedTo(cfg, burst, ip, 0.0) && 0.0 <= at && Refill(cfg, at) >= 1.0
    ensures Allowed(Run(cfg, burst, true), cfg, ip, at)
  {
    SameRun(cfg, burst);
    RunOk(cfg, burst, true);
    LevelLater(Run(cfg, burst, true), cfg, ip, 0.0, at);
    LimitersOkLater(Run(cfg, burst, true), cfg, 0.0, at);
    RequestLevel(Run(cfg, burst, true), cfg, ip, at, at, ip);
  }

  lemma BurstCount(cfg: Config, ip: Ip, s: real, t: real)
    requires cfg.Valid() && cfg.burst >= 1 && 0.0 <= s <= t
    ensures AllowedWithin(cfg, Burst(ip, 0.0, cfg.burst), ip, s, t, true) == if s == 0.0 then cfg.burst else 0
  {
    if s == 0.0 {
      BurstOfStranger(cfg, [], ip, 0.0, 0.0, t, 0, cfg.burst);
      assert [] + Burst(ip, 0.0, cfg.burst) == Burst(ip, 0.0, cfg.burst);
    } else {
      EarlierBurst(cfg, ip, cfg.burst, s, t);
    }
  }

  function BurstThenLate(cfg: Config, ip: Ip, seen: real): seq<Event>
    requires cfg.burst >= 0
  {
    Burst(ip, 0.0, cfg.burst) + [Request(ip, seen, seen + cfg.skew)]
  }

  /** A burst and the late request, counted from the burst on or from the late request on. */
  lemma FirstCount(cfg: Config, ip: Ip, seen: real, s: real, t: real)
    requires cfg.Valid() && cfg.burst >= 1 && 0.0 <= seen && Refill(cfg, seen + cfg.skew) >= 1.0
    requires (s == 0.0 || 0.0 < s == seen + cfg.skew) && seen + cfg.skew <= t
    ensures AllowedWithin(cfg, BurstThenLate(cfg, ip, seen), ip, s, t, true)
         == (if s == 0.0 then cfg.burst else 0) + 1
  {
    BurstDrains(cfg, ip, cfg.burst);
    LateRequestAllowed(cfg, Burst(ip, 0.0, cfg.burst), ip, seen + cfg.skew);
    BurstCount(cfg, ip, s, t);
    CountOne(cfg, Burst(ip, 0.0, cfg.burst), Request(ip, seen, seen + cfg.skew), ip, s, t);
  }

  /** From the start of the window, the late request and the bursts are more than the bound allows. */
  lemma TooMany(cfg: Config, seen: real, idle: real)
    requires cfg.Valid() && cfg.burst >= 1 && idle >= cfg.skew
    requires Spare(cfg, cfg.skew) + Refill(cfg, idle - cfg.skew) < Full(cfg)
    requires Refill(cfg, seen + cfg.skew) == if Refill(cfg, cfg.skew) < 1.0 then 1.0 else Refill(cfg, cfg.skew)
    ensures Refill(cfg, cfg.skew) <= Full(cfg) ==> Full(cfg) + 1.0 > Refill(cfg, seen + idle)
    ensures Refill(cfg, cfg.skew) > Full(cfg) ==> 1.0 > Refill(cfg, seen + idle - (seen + cfg.skew))
  {
    RefillAdds(cfg, seen + cfg.skew, idle - cfg.skew);
    assert (seen + cfg.skew) + (idle - cfg.skew) == seen + idle;
    assert seen + idle - (seen + cfg.skew) == idle - cfg.skew;
  }

  /** A client that is forgotten too early is let through more often than the bound allows. */
  lemma OverTheBound(cfg: Config, ip: Ip) returns (trace: seq<Event>, s: real, t: real)
    requires cfg.Valid() && !RefillsInTime(cfg)
    ensures WellTimed(cfg, trace) && s <= t
    ensures AllowedWithin(cfg, trace, ip, s, t, true) as real > Full(cfg) + Refill(cfg, t - s)
  {
    var idle := SomewhatLater(cfg);
    if cfg.rps == 0.0 {
      trace, s, t := TwoBursts(cfg, ip, idle), 0.0, idle;
      TwoBurstsAllowed(cfg, ip, idle);
      assert Refill(cfg, t - s) == 0.0;
    } else {
      var seen := LateInstant(cfg);
      s, t := if Refill(cfg, cfg.skew) <= Full(cfg) then 0.0 else seen + cfg.skew, seen + idle;
      trace := LateThenBurst(cfg, ip, seen, idle, s);
      TooMany(cfg, seen, idle);
    }
  }

  /** The burst, the late request, the sweep and the burst of the forgotten client. */
  lemma LateThenBurst(cfg: Config, ip: Ip, seen: real, idle: real, s: real) returns (trace: seq<Event>)
    requires cfg.Valid() && cfg.burst >= 1 && 0.0 <= seen && idle > cfg.ttl && idle >= cfg.skew
    requires Refill(cfg, seen + cfg.skew) == if Refill(cfg, cfg.skew) < 1.0 then 1.0 else Refill(cfg, cfg.skew)
    requires Spare(cfg, cfg.skew) + Refill(cfg, idle - cfg.skew) < Full(cfg)
    requires s == 0.0 || (0.0 < s == seen + cfg.skew)
    ensures WellTimed(cfg, trace)
    ensures AllowedWithin(cfg, trace, ip, s, seen + idle, true) == (if s == 0.0 then cfg.burst else 0) + 1 + cfg.burst
  {
    var first := BurstThenLate(cfg, ip, seen);
    LateLeaves(cfg, ip, seen);
    FirstCount(cfg, ip, seen, s, seen + idle);
    BurstAfterSweep(cfg, first, ip, seen, Spare(cfg, cfg.skew), idle, s);
    trace := first + [Sweep(seen + idle)] + Burst(ip, seen + idle, cfg.burst);
  }

  lemma LateLeaves(cfg: Config, ip: Ip, seen: real)
    requires cfg.Valid() && cfg.burst >= 1 && 0.0 <= seen
    requires Refill(cfg, seen + cfg.skew) == if Refill(cfg, cfg.skew) < 1.0 then 1.0 else Refill(cfg, cfg.skew)
    ensures LeftWith(cfg, BurstThenLate(cfg, ip, seen), ip, seen, Spare(cfg, cfg.skew))
  {
    BurstDrains(cfg, ip, cfg.burst);
    LeftByLastRequest(cfg, Burst(ip, 0.0, cfg.burst), ip, seen);
  }

  lemma BurstAfterSweep(cfg: Config, first: seq<Event>, ip: Ip, seen: real, level: real, idle: real, s: real)
    requires cfg.Valid() && cfg.burst >= 1 && LeftWith(cfg, first, ip, seen, level) && s <= seen + idle
    requires idle > cfg.ttl && idle >= cfg.skew && level + Refill(cfg, idle - cfg.skew) < Full(cfg)
    ensures var t := seen + idle;
            var trace := first + [Sweep(t)] + Burst(ip, t, cfg.burst);
            && WellTimed(cfg, trace)
            && AllowedWithin(cfg, trace, ip, s, t, true) == AllowedWithin(cfg, first, ip, s, t, true) + cfg.burst
  {
    var t := seen + idle;
    SweepSeparates(cfg, first, ip, seen, level, idle);
    CountOne(cfg, first, Sweep(t), ip, s, t);
    BurstOfStranger(cfg, first + [Sweep(t)], ip, t, s, t, AllowedWithin(cfg, first, ip, s, t, true), cfg.burst);
  }

  ghost predicate BoundHolds(cfg: Config, trace: seq<Event>, ip: Ip, s: real, t: real) {
    AllowedWithin(cfg, trace, ip, s, t, true) as real <= Full(cfg) + Refill(cfg, t - s)
  }

  /** The window bound holds for every trace, client and interval if and only if buckets refill in time. */
  lemma WindowBoundIff(cfg: Config)
    requires cfg.Valid() && cfg.burst >= 0
    ensures (forall trace, ip, s, t :: WellTimed(cfg, trace) && s <= t ==> BoundHolds(cfg, trace, ip, s, t))
            <==> RefillsInTime(cfg)
  {
    if RefillsInTime(cfg) {
      forall trace, ip, s, t | WellTimed(cfg, trace) && s <= t ensures BoundHolds(cfg, trace, ip, s, t) {
        WindowBound(cfg, trace, ip, s, t);
      }
    } else {
      var trace, s, t := OverTheBound(cfg, "client");
      assert !BoundHolds(cfg, trace, "client", s, t);
    }
  }
}
