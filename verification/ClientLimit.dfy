/**
 The control plane's rate limiter: a token bucket for every client, made when the
 client is first seen, dropped when it has been idle or when it has to make room.
 */
module ClientLimit {
  import opened RateLimit

  const DEFAULT_CLEANUP_INTERVAL := 60_000_000_000
  const DEFAULT_CLIENT_TTL := 600_000_000_000

  /** `rate` is in tokens per nanosecond; times are in nanoseconds. */
  datatype Config = Config(
    rate: real, burst: real, enabled: bool, maxClients: int, clientTtl: int, cleanupInterval: int)

  function Interval(cfg: Config): int {
    if cfg.cleanupInterval <= 0 then DEFAULT_CLEANUP_INTERVAL else cfg.cleanupInterval
  }

  function Ttl(cfg: Config): int { if cfg.clientTtl <= 0 then DEFAULT_CLIENT_TTL else cfg.clientTtl }

  datatype Bucket = Bucket(tokens: real, lastRefill: real, lastSeen: int)

  function Topped(cfg: Config, b: Bucket, now: real): real {
    Min(b.tokens + Earned(now - b.lastRefill, cfg.rate), cfg.burst)
  }

  function Taken(cfg: Config, b: Bucket, now: real): Bucket {
    var t := Topped(cfg, b, now);
    b.(tokens := if t >= 1.0 then t - 1.0 else t, lastRefill := now)
  }

  /**
   One request: the clock when it came in, read before the lock is taken, when its
   bucket was made, if it was, and when it took its token, both read under the lock.
   */
  datatype Request = Request(key: string, seen: int, born: real, now: real)

  function KeyOf(key: string): string { if key == "" then "unknown" else key }

  datatype Limited = Limited(buckets: map<string, Bucket>, lastCleanup: int)

  function Fresh(bs: map<string, Bucket>, cutoff: int): map<string, Bucket> {
    map k | k in bs && bs[k].lastSeen >= cutoff :: bs[k]
  }

  /** `cleanupLocked`: once an interval, the buckets not seen for the time to live go. */
  function Cleaned(cfg: Config, s: Limited, seen: int): Limited {
    if seen - s.lastCleanup < Interval(cfg) then s else Limited(Fresh(s.buckets, seen - Ttl(cfg)), seen)
  }

  /** A new client comes, and there are as many as there may be. */
  predicate Crowded(cfg: Config, bs: map<string, Bucket>, key: string) {
    key !in bs && cfg.maxClients > 0 && |bs| >= cfg.maxClients
  }

  ghost predicate Oldest(bs: map<string, Bucket>, key: string) {
    key in bs && forall k <- bs :: bs[key].lastSeen <= bs[k].lastSeen
  }

  /** A request and, should one have to go for it, the client that goes; map order picks among equally old ones. */
  datatype Call = Call(q: Request, victim: string)

  ghost predicate Possible(cfg: Config, s: Limited, c: Call) {
    var bs := Cleaned(cfg, s, c.q.seen).buckets;
    Crowded(cfg, bs, KeyOf(c.q.key)) ==> Oldest(bs, c.victim)
  }

  /** The buckets that are left when the request finds or makes its own. */
  function Room(cfg: Config, s: Limited, c: Call): map<string, Bucket> {
    var bs := Cleaned(cfg, s, c.q.seen).buckets;
    if Crowded(cfg, bs, KeyOf(c.q.key)) then bs - {c.victim} else bs
  }

  function BucketFor(cfg: Config, bs: map<string, Bucket>, q: Request): Bucket {
    if KeyOf(q.key) in bs then bs[KeyOf(q.key)].(lastSeen := q.seen) else Bucket(cfg.burst, q.born, q.seen)
  }

  function Served(cfg: Config, s: Limited, c: Call): Limited {
    var left := Room(cfg, s, c);
    Limited(left[KeyOf(c.q.key) := Taken(cfg, BucketFor(cfg, left, c.q), c.q.now)],
            Cleaned(cfg, s, c.q.seen).lastCleanup)
  }

  predicate Admits(cfg: Config, s: Limited, c: Call) {
    Topped(cfg, BucketFor(cfg, Room(cfg, s, c), c.q), c.q.now) >= 1.0
  }

  class ClientLimiter {
    const config: Config
    var buckets: map<string, Bucket>
    var lastCleanup: int

    ghost function Abs(): Limited
      reads this
    {
      Limited(buckets, lastCleanup)
    }

    ghost predicate Valid()
      reads this
    {
      "" !in buckets && (config.maxClients > 0 ==> |buckets| <= config.maxClients)
    }

    constructor (config: Config, now: int)
      ensures Valid() && Abs() == Limited(map[], now) && this.config == config
    {
      this.config := config;
      buckets, lastCleanup := map[], now;
    }

    /** `allowKey`: never more clients than configured, and the oldest makes room for a new one. */
    method AllowKey(q: Request) returns (ok: bool, ghost victim: string)
      requires Valid()
      modifies this
      ensures Valid()
      ensures !config.enabled ==> ok && Abs() == old(Abs())
      ensures config.enabled ==>
                var c := Call(q, victim);
                && Possible(config, old(Abs()), c)
                && Abs() == Served(config, old(Abs()), c) && ok == Admits(config, old(Abs()), c)
    {
      victim := "";
      if !config.enabled {
        return true, victim;
      }
      var key := if q.key == "" then "unknown" else q.key;
      CleanupLocked(q.seen);
      victim := EnsureBucket(key, q);
      ok := TakeFor(key, q, Room(config, old(Abs()), Call(q, victim)));
    }

    /** The client's bucket, or a new one; for a new one the oldest client may have to go. */
    method EnsureBucket(key: string, q: Request) returns (ghost victim: string)
      requires Valid() && key != ""
      modifies this`buckets
      ensures Valid()
      ensures Crowded(config, old(buckets), key) ==> Oldest(old(buckets), victim)
      ensures var left := if Crowded(config, old(buckets), key) then old(buckets) - {victim} else old(buckets);
              buckets == left[key := if key in left then left[key] else Bucket(config.burst, q.born, q.seen)]
    {
      victim := "";
      if key !in buckets {
        if config.maxClients > 0 && |buckets| >= config.maxClients {
          victim := EvictOldestLocked();
        }
        OneMoreKey(buckets, key, Bucket(config.burst, q.born, q.seen));
        buckets := buckets[key := Bucket(config.burst, q.born, q.seen)];
      }
    }

    /** The client is seen, and `take` is called on its bucket, `left` being the buckets before its own was made. */
    method TakeFor(key: string, q: Request, ghost left: map<string, Bucket>) returns (ok: bool)
      requires Valid() && key == KeyOf(q.key)
      requires buckets == left[key := if key in left then left[key] else Bucket(config.burst, q.born, q.seen)]
      modifies this`buckets
      ensures Valid()
      ensures buckets == left[key := Taken(config, BucketFor(config, left, q), q.now)]
      ensures ok == (Topped(config, BucketFor(config, left, q), q.now) >= 1.0)
    {
      ghost var before := buckets;
      ok := Take(key, q.seen, q.now);
      UpdateTwice(left, key, before[key], buckets[key]);
    }

    /** `take`, on the bucket of a client just seen. */
    method Take(key: string, seen: int, now: real) returns (ok: bool)
      requires Valid() && key in buckets
      modifies this`buckets
      ensures Valid()
      ensures buckets == old(buckets)[key := Taken(config, old(buckets)[key].(lastSeen := seen), now)]
      ensures ok == (Topped(config, old(buckets)[key], now) >= 1.0)
    {
      var bucket := buckets[key].(lastSeen := seen);
      var tokens := bucket.tokens + Earned(now - bucket.lastRefill, config.rate);
      if tokens > config.burst {
        tokens := config.burst;
      }
      ok := tokens >= 1.0;
      if ok {
        tokens := tokens - 1.0;
      }
      buckets := buckets[key := bucket.(tokens := tokens, lastRefill := now)];
      assert buckets.Keys == old(buckets).Keys;
    }

    method CleanupLocked(now: int)
      requires Valid()
      modifies this
      ensures Valid() && Abs() == Cleaned(config, old(Abs()), now)
    {
      var interval := config.cleanupInterval;
      if interval <= 0 {
        interval := DEFAULT_CLEANUP_INTERVAL;
      }
      if now - lastCleanup < interval {
        return;
      }
      lastCleanup := now;
      var ttl := config.clientTtl;
      if ttl <= 0 {
        ttl := DEFAULT_CLIENT_TTL;
      }
      DropStale(now - ttl);
    }

    /** The loop of `cleanupLocked`. */
    method DropStale(cutoff: int)
      requires Valid()
      modifies this`buckets
      ensures Valid() && buckets == Fresh(old(buckets), cutoff)
    {
      var todo := buckets.Keys;
      while todo != {}
        invariant todo <= old(buckets).Keys
        invariant buckets ==
                  map k | k in old(buckets) && (k in todo || old(buckets)[k].lastSeen >= cutoff) :: old(buckets)[k]
        decreases todo
      {
        var key :| key in todo;
        if buckets[key].lastSeen < cutoff {
          buckets := buckets - {key};
        }
        todo := todo - {key};
      }
      SubsetSmaller(buckets.Keys, old(buckets).Keys);
    }

    /** `evictOldestLocked`: of several equally old clients map order picks any. */
    method EvictOldestLocked() returns (ghost victim: string)
      requires "" !in buckets && buckets != map[]
      modifies this`buckets
      ensures Oldest(old(buckets), victim)
      ensures buckets == old(buckets) - {victim} && |buckets| == |old(buckets)| - 1
    {
      var oldestKey, oldestTime, first := "", 0, true;
      var todo := buckets.Keys;
      assert todo != {};
      while todo != {}
        invariant todo <= buckets.Keys
        invariant first <==> todo == buckets.Keys
        invariant first <==> oldestKey == ""
        invariant !first ==> oldestKey in buckets && oldestTime == buckets[oldestKey].lastSeen
        invariant !first ==> forall k :: k in buckets && k !in todo ==> oldestTime <= buckets[k].lastSeen
        decreases todo
      {
        var key :| key in todo;
        if first || buckets[key].lastSeen < oldestTime {
          oldestKey, oldestTime, first := key, buckets[key].lastSeen, false;
        }
        todo := todo - {key};
      }
      victim := oldestKey;
      if oldestKey != "" {
        buckets := buckets - {oldestKey};
        assert buckets.Keys == old(buckets).Keys - {victim};
      }
    }
  }

  lemma UpdateTwice<K, V>(m: map<K, V>, k: K, a: V, b: V)
    ensures m[k := a][k := b] == m[k := b]
  {
  }

  lemma OneMoreKey<K, V>(m: map<K, V>, k: K, v: V)
    requires k !in m
    ensures |m[k := v]| == |m| + 1
  {
    assert m[k := v].Keys == m.Keys + {k};
    assert |m| == |m.Keys| && |m[k := v]| == |m[k := v].Keys|;
  }

  lemma SubsetSmaller<T>(a: set<T>, b: set<T>)
    requires a <= b
    ensures |a| <= |b|
  {
    assert b == a + (b - a);
  }

  // ---------------------------------------------------------------------------
  // Runs of the limiter

  function Final(cfg: Config, s: Limited, cs: seq<Call>): Limited
    decreases |cs|
  {
    if cs == [] then s else Final(cfg, Served(cfg, s, cs[0]), cs[1..])
  }

  function One(b: bool): nat { if b then 1 else 0 }

  /** Requests of client `k` admitted, and buckets made for it. */
  function Admitted(cfg: Config, s: Limited, cs: seq<Call>, k: string): nat
    decreases |cs|
  {
    if cs == [] then 0
    else One(KeyOf(cs[0].q.key) == k && Admits(cfg, s, cs[0])) + Admitted(cfg, Served(cfg, s, cs[0]), cs[1..], k)
  }

  function Births(cfg: Config, s: Limited, cs: seq<Call>, k: string): nat
    decreases |cs|
  {
    if cs == [] then 0
    else One(KeyOf(cs[0].q.key) == k && k !in Room(cfg, s, cs[0])) + Births(cfg, Served(cfg, s, cs[0]), cs[1..], k)
  }

  /** The lock orders the clock readings taken under it. */
  predicate Ordered(cs: seq<Call>, t: real)
    decreases |cs|
  {
    cs == [] || (t <= cs[0].q.born <= cs[0].q.now && Ordered(cs[1..], cs[0].q.now))
  }

  function Finish(cs: seq<Call>, t: real): real
    decreases |cs|
  {
    if cs == [] then t else Finish(cs[1..], cs[0].q.now)
  }

  lemma {:induction false} FinishAfter(cs: seq<Call>, t: real)
    requires Ordered(cs, t)
    ensures t <= Finish(cs, t)
    decreases |cs|
  {
    if cs != [] {
      FinishAfter(cs[1..], cs[0].q.now);
    }
  }

  lemma RoomIsPart(cfg: Config, s: Limited, c: Call, k: string)
    ensures var left := Room(cfg, s, c); k in left ==> k in s.buckets && left[k] == s.buckets[k]
  {
  }

  // ---------------------------------------------------------------------------
  // What holds of any run: a burst for every bucket

  ghost predicate Account(
    cfg: Config, bs: map<string, Bucket>, k: string, admitted: nat, births: nat, start: real, t: real)
  {
    var allowance := Earned(births as real, cfg.burst);
    if k !in bs then admitted as real <= allowance + Earned(t - start, cfg.rate)
    else
      var b := bs[k];
      && 0.0 <= b.tokens <= cfg.burst && b.lastRefill <= t
      && if b.lastRefill < start then admitted == 0 && births >= 1
         else admitted as real + b.tokens <= allowance + Earned(b.lastRefill - start, cfg.rate)
  }

  lemma MoreBirths(a: nat, burst: real)
    requires 0.0 <= burst
    ensures Earned((a + 1) as real, burst) == Earned(a as real, burst) + burst
    ensures a >= 1 ==> burst <= Earned(a as real, burst)
  {
    EarnedAdds(a as real, 1.0, burst);
    assert (a + 1) as real == a as real + 1.0;
    if a >= 1 {
      EarnedNonNegative(a as real - 1.0, burst);
      EarnedAdds(a as real - 1.0, 1.0, burst);
    }
  }

  /** Dropping buckets can only forfeit tokens. */
  lemma DropKeepsAccount(cfg: Config, bs: map<string, Bucket>, left: map<string, Bucket>, k: string,
                         admitted: nat, births: nat, start: real, t: real)
    requires 0.0 <= cfg.rate && 0.0 <= cfg.burst && start <= t
    requires Account(cfg, bs, k, admitted, births, start, t)
    requires k in left ==> k in bs && left[k] == bs[k]
    ensures Account(cfg, left, k, admitted, births, start, t)
  {
    if k in bs && k !in left {
      EarnedNonNegative(births as real, cfg.burst);
      EarnedNonNegative(t - start, cfg.rate);
      if bs[k].lastRefill >= start {
        EarnedNonNegative(t - bs[k].lastRefill, cfg.rate);
        EarnedAdds(bs[k].lastRefill - start, t - bs[k].lastRefill, cfg.rate);
      }
    }
  }

  lemma TakeKeepsAccount(cfg: Config, b: Bucket, admitted: nat, births: nat, start: real, now: real)
    requires 0.0 <= cfg.rate && 0.0 <= cfg.burst && start <= now
    requires Account(cfg, map["k" := b], "k", admitted, births, start, now)
    ensures var g := if Topped(cfg, b, now) >= 1.0 then admitted + 1 else admitted;
            Account(cfg, map["k" := Taken(cfg, b, now)], "k", g, births, start, now)
  {
    EarnedNonNegative(now - b.lastRefill, cfg.rate);
    EarnedNonNegative(now - start, cfg.rate);
    MoreBirths(births, cfg.burst);
    EarnedAdds(now - b.lastRefill, b.lastRefill - start, cfg.rate);
  }

  lemma LaterKeepsAccount(cfg: Config, bs: map<string, Bucket>, k: string,
                          admitted: nat, births: nat, start: real, t: real, u: real)
    requires 0.0 <= cfg.rate && t <= u && Account(cfg, bs, k, admitted, births, start, t)
    ensures Account(cfg, bs, k, admitted, births, start, u)
  {
    EarnedNonNegative(u - t, cfg.rate);
    EarnedAdds(t - start, u - t, cfg.rate);
  }

  lemma ServeKeepsAccount(cfg: Config, s: Limited, c: Call, k: string,
                          admitted: nat, births: nat, start: real, t: real)
    requires 0.0 <= cfg.rate && 0.0 <= cfg.burst && start <= t <= c.q.born <= c.q.now
    requires Account(cfg, s.buckets, k, admitted, births, start, t)
    ensures var mine := KeyOf(c.q.key) == k;
            Account(cfg, Served(cfg, s, c).buckets, k, admitted + One(mine && Admits(cfg, s, c)),
                    births + One(mine && k !in Room(cfg, s, c)), start, c.q.now)
  {
    var left := Room(cfg, s, c);
    RoomIsPart(cfg, s, c, k);
    DropKeepsAccount(cfg, s.buckets, left, k, admitted, births, start, t);
    LaterKeepsAccount(cfg, left, k, admitted, births, start, t, c.q.now);
    if KeyOf(c.q.key) == k {
      var b := BucketFor(cfg, left, c.q);
      if k !in left {
        LaterKeepsAccount(cfg, left, k, admitted, births, start, t, c.q.born);
        MoreBirths(births, cfg.burst);
        TakeKeepsAccount(cfg, b, admitted, births + 1, start, c.q.now);
      } else {
        TakeKeepsAccount(cfg, b, admitted, births, start, c.q.now);
      }
    }
  }

  lemma {:induction false} ClientRun(cfg: Config, s: Limited, cs: seq<Call>, k: string,
                                     admitted: nat, births: nat, start: real, t: real)
    requires 0.0 <= cfg.rate && 0.0 <= cfg.burst && start <= t && Ordered(cs, t)
    requires Account(cfg, s.buckets, k, admitted, births, start, t)
    ensures Account(cfg, Final(cfg, s, cs).buckets, k, admitted + Admitted(cfg, s, cs, k),
                    births + Births(cfg, s, cs, k), start, Finish(cs, t))
    decreases |cs|
  {
    if cs != [] {
      var c := cs[0];
      var mine := KeyOf(c.q.key) == k;
      ServeKeepsAccount(cfg, s, c, k, admitted, births, start, t);
      ClientRun(cfg, Served(cfg, s, c), cs[1..], k, admitted + One(mine && Admits(cfg, s, c)),
                births + One(mine && k !in Room(cfg, s, c)), start, c.q.now);
    }
  }

  lemma AccountOpens(cfg: Config, bs: map<string, Bucket>, k: string, start: real)
    requires 0.0 <= cfg.burst
    requires k in bs ==> 0.0 <= bs[k].tokens <= cfg.burst && bs[k].lastRefill <= start
    ensures Account(cfg, bs, k, 0, One(k in bs), start, start)
  {
    MoreBirths(0, cfg.burst);
  }

  lemma AccountBounds(cfg: Config, bs: map<string, Bucket>, k: string,
                      admitted: nat, births: nat, start: real, t: real)
    requires 0.0 <= cfg.rate && 0.0 <= cfg.burst && start <= t
    requires Account(cfg, bs, k, admitted, births, start, t)
    ensures admitted as real <= Earned(births as real, cfg.burst) + Earned(t - start, cfg.rate)
  {
    EarnedNonNegative(births as real, cfg.burst);
    EarnedNonNegative(t - start, cfg.rate);
    if k in bs && bs[k].lastRefill >= start {
      EarnedAdds(bs[k].lastRefill - start, t - bs[k].lastRefill, cfg.rate);
      EarnedNonNegative(t - bs[k].lastRefill, cfg.rate);
    }
  }

  /**
   In any window of any run one client is admitted at most its burst, once for the
   bucket it starts with and once more for each bucket made for it after an
   eviction or cleanup, plus the rate times the window.
   */
  lemma ClientWindowBound(cfg: Config, s: Limited, cs: seq<Call>, k: string, start: real)
    requires 0.0 <= cfg.rate && 0.0 <= cfg.burst && Ordered(cs, start)
    requires k in s.buckets ==> 0.0 <= s.buckets[k].tokens <= cfg.burst && s.buckets[k].lastRefill <= start
    ensures var buckets := One(k in s.buckets) + Births(cfg, s, cs, k);
            Admitted(cfg, s, cs, k) as real <=
            Earned(buckets as real, cfg.burst) + Earned(Finish(cs, start) - start, cfg.rate)
  {
    var n := One(k in s.buckets);
    AccountOpens(cfg, s.buckets, k, start);
    ClientRun(cfg, s, cs, k, 0, n, start, start);
    FinishAfter(cs, start);
    AccountBounds(cfg, Final(cfg, s, cs).buckets, k, 0 + Admitted(cfg, s, cs, k),
                  n + Births(cfg, s, cs, k), start, Finish(cs, start));
  }

  // ---------------------------------------------------------------------------
  // When one burst is enough

  /** The clients of a run. */
  function Clients(cs: seq<Call>): set<string> { set c | c in cs :: KeyOf(c.q.key) }

  /** No client will ever have to make room for another. */
  predicate Roomy(cfg: Config, clients: set<string>) { cfg.maxClients <= 0 || |clients| <= cfg.maxClients }

  /** A request takes its token, and has its bucket made, at most `d` after it came in. */
  predicate Prompt(q: Request, d: int) { q.seen as real <= q.born <= q.now <= (q.seen + d) as real }

  /** A bucket idle long enough to be dropped would be full again. */
  predicate Refills(cfg: Config, d: int) { Earned((Ttl(cfg) + 1 - d) as real, cfg.rate) >= cfg.burst }

  /** What the limiter could do, the clock readings under the lock being in order from `t`. */
  ghost predicate Run(cfg: Config, s: Limited, cs: seq<Call>, d: int, clients: set<string>, t: real)
    decreases |cs|
  {
    cs == [] ||
    (&& Possible(cfg, s, cs[0]) && Prompt(cs[0].q, d) && KeyOf(cs[0].q.key) in clients && t <= cs[0].q.born
     && Run(cfg, Served(cfg, s, cs[0]), cs[1..], d, clients, cs[0].q.now))
  }

  ghost predicate BucketOk(cfg: Config, b: Bucket, d: int, t: real) {
    0.0 <= b.tokens <= cfg.burst && b.lastRefill <= t && b.lastRefill <= (b.lastSeen + d) as real
  }

  ghost predicate Tracked(cfg: Config, s: Limited, d: int, clients: set<string>, t: real) {
    forall k <- s.buckets :: k in clients && BucketOk(cfg, s.buckets[k], d, t)
  }

  lemma TakenOk(cfg: Config, b: Bucket, d: int, t: real, q: Request)
    requires 0.0 <= cfg.rate && 0.0 <= cfg.burst && 0.0 <= b.tokens <= cfg.burst && b.lastRefill <= q.now
    requires Prompt(q, d) && b.lastSeen == q.seen
    ensures BucketOk(cfg, Taken(cfg, b, q.now), d, q.now)
  {
    EarnedNonNegative(q.now - b.lastRefill, cfg.rate);
  }

  lemma ServeKeepsTracked(cfg: Config, s: Limited, c: Call, d: int, clients: set<string>, t: real)
    requires 0.0 <= cfg.rate && 0.0 <= cfg.burst && Tracked(cfg, s, d, clients, t)
    requires Prompt(c.q, d) && KeyOf(c.q.key) in clients && t <= c.q.born
    ensures Tracked(cfg, Served(cfg, s, c), d, clients, c.q.now)
  {
    var left, v := Room(cfg, s, c), Served(cfg, s, c);
    forall k | k in v.buckets ensures k in clients && BucketOk(cfg, v.buckets[k], d, c.q.now) {
      RoomIsPart(cfg, s, c, k);
      if k == KeyOf(c.q.key) {
        TakenOk(cfg, BucketFor(cfg, left, c.q), d, t, c.q);
      }
    }
  }

  lemma NeverCrowded(cfg: Config, s: Limited, c: Call, d: int, clients: set<string>, t: real)
    requires Tracked(cfg, s, d, clients, t) && KeyOf(c.q.key) in clients && Roomy(cfg, clients)
    ensures Room(cfg, s, c) == Cleaned(cfg, s, c.q.seen).buckets
  {
    var bs, key := Cleaned(cfg, s, c.q.seen).buckets, KeyOf(c.q.key);
    if key !in bs {
      assert bs.Keys <= clients - {key};
      SubsetSmaller(bs.Keys, clients - {key});
      assert |bs| == |bs.Keys|;
    }
  }

  lemma EarnedAtLeast(a: real, b: real, r: real)
    requires a <= b && 0.0 <= r
    ensures Earned(a, r) <= Earned(b, r)
  {
    EarnedAdds(a, b - a, r);
    EarnedNonNegative(b - a, r);
  }

  /** A bucket the cleanup drops would be full by the time it could be made again. */
  lemma DroppedIsFull(cfg: Config, s: Limited, c: Call, d: int, clients: set<string>, t: real, k: string)
    requires 0.0 <= cfg.rate && Refills(cfg, d) && Roomy(cfg, clients)
    requires Tracked(cfg, s, d, clients, t) && Prompt(c.q, d) && KeyOf(c.q.key) in clients
    requires k in s.buckets && k !in Room(cfg, s, c)
    ensures cfg.burst <= Earned(c.q.born - s.buckets[k].lastRefill, cfg.rate)
  {
    NeverCrowded(cfg, s, c, d, clients, t);
    var b := s.buckets[k];
    assert b.lastSeen + Ttl(cfg) + 1 <= c.q.seen;
    assert (Ttl(cfg) + 1 - d) as real <= c.q.born - b.lastRefill;
    EarnedAtLeast((Ttl(cfg) + 1 - d) as real, c.q.born - b.lastRefill, cfg.rate);
  }

  /** Admissions since `start` against one burst, whether the client has a bucket or would get a full one. */
  ghost predicate Steady(cfg: Config, bs: map<string, Bucket>, k: string, admitted: nat, start: real, t: real) {
    if k !in bs then admitted as real <= Earned(t - start, cfg.rate)
    else
      var b := bs[k];
      && 0.0 <= b.tokens <= cfg.burst && b.lastRefill <= t
      && if b.lastRefill < start then admitted == 0
         else admitted as real + b.tokens <= cfg.burst + Earned(b.lastRefill - start, cfg.rate)
  }

  lemma SteadyIsAccount(cfg: Config, b: Bucket, k: string, admitted: nat, start: real, t: real)
    requires 0.0 <= cfg.burst
    ensures Steady(cfg, map[k := b], k, admitted, start, t) <==> Account(cfg, map[k := b], k, admitted, 1, start, t)
  {
    MoreBirths(0, cfg.burst);
    assert Earned(1.0, cfg.burst) == cfg.burst;
  }

  lemma TakeKeepsSteady(cfg: Config, b: Bucket, admitted: nat, start: real, now: real)
    requires 0.0 <= cfg.rate && 0.0 <= cfg.burst && start <= now
    requires Steady(cfg, map["k" := b], "k", admitted, start, now)
    ensures Steady(cfg, map["k" := Taken(cfg, b, now)], "k", admitted + One(Topped(cfg, b, now) >= 1.0), start, now)
  {
    SteadyIsAccount(cfg, b, "k", admitted, start, now);
    TakeKeepsAccount(cfg, b, admitted, 1, start, now);
    SteadyIsAccount(cfg, Taken(cfg, b, now), "k", admitted + One(Topped(cfg, b, now) >= 1.0), start, now);
  }

  /** Dropping a bucket that would be full costs nothing. */
  lemma DropKeepsSteady(cfg: Config, b: Bucket, admitted: nat, start: real, t: real, born: real)
    requires 0.0 <= cfg.rate && 0.0 <= cfg.burst && start <= t <= born
    requires Steady(cfg, map["k" := b], "k", admitted, start, t)
    requires cfg.burst <= Earned(born - b.lastRefill, cfg.rate)
    ensures admitted as real <= Earned(born - start, cfg.rate)
  {
    EarnedNonNegative(born - start, cfg.rate);
    EarnedAdds(born - b.lastRefill, b.lastRefill - start, cfg.rate);
  }

  /** What the request finds left still balances, at the time its bucket would be made. */
  lemma RoomSteady(cfg: Config, s: Limited, c: Call, d: int, clients: set<string>, k: string,
                   admitted: nat, start: real, t: real)
    requires 0.0 <= cfg.rate && 0.0 <= cfg.burst && Refills(cfg, d) && Roomy(cfg, clients)
    requires Tracked(cfg, s, d, clients, t) && Prompt(c.q, d) && KeyOf(c.q.key) in clients
    requires start <= t <= c.q.born && Steady(cfg, s.buckets, k, admitted, start, t)
    ensures Steady(cfg, Room(cfg, s, c), k, admitted, start, c.q.born)
  {
    RoomIsPart(cfg, s, c, k);
    if k in s.buckets {
      if k !in Room(cfg, s, c) {
        DroppedIsFull(cfg, s, c, d, clients, t, k);
        DropKeepsSteady(cfg, s.buckets[k], admitted, start, t, c.q.born);
      }
    } else {
      EarnedAtLeast(t - start, c.q.born - start, cfg.rate);
    }
  }

  lemma ServeKeepsSteady(cfg: Config, s: Limited, c: Call, d: int, clients: set<string>, k: string,
                         admitted: nat, start: real, t: real)
    requires 0.0 <= cfg.rate && 0.0 <= cfg.burst && Refills(cfg, d) && Roomy(cfg, clients)
    requires Tracked(cfg, s, d, clients, t) && Prompt(c.q, d) && KeyOf(c.q.key) in clients
    requires start <= t <= c.q.born && Steady(cfg, s.buckets, k, admitted, start, t)
    ensures Steady(cfg, Served(cfg, s, c).buckets, k,
                   admitted + One(KeyOf(c.q.key) == k && Admits(cfg, s, c)), start, c.q.now)
  {
    RoomSteady(cfg, s, c, d, clients, k, admitted, start, t);
    var left := Room(cfg, s, c);
    if KeyOf(c.q.key) == k {
      TakeKeepsSteady(cfg, BucketFor(cfg, left, c.q), admitted, start, c.q.now);
    } else {
      EarnedAtLeast(c.q.born - start, c.q.now - start, cfg.rate);
    }
  }

  lemma {:induction false} SteadyRun(cfg: Config, s: Limited, cs: seq<Call>, d: int, clients: set<string>, k: string,
                                     admitted: nat, start: real, t: real)
    requires 0.0 <= cfg.rate && 0.0 <= cfg.burst && Refills(cfg, d) && Roomy(cfg, clients)
    requires Tracked(cfg, s, d, clients, t) && Run(cfg, s, cs, d, clients, t)
    requires start <= t && Steady(cfg, s.buckets, k, admitted, start, t)
    ensures (admitted + Admitted(cfg, s, cs, k)) as real <= cfg.burst + Earned(Finish(cs, t) - start, cfg.rate)
    decreases |cs|
  {
    if cs == [] {
      EarnedNonNegative(t - start, cfg.rate);
      if k in s.buckets && s.buckets[k].lastRefill >= start {
        EarnedAtLeast(s.buckets[k].lastRefill - start, t - start, cfg.rate);
      }
    } else {
      var c := cs[0];
      ServeKeepsTracked(cfg, s, c, d, clients, t);
      ServeKeepsSteady(cfg, s, c, d, clients, k, admitted, start, t);
      SteadyRun(cfg, Served(cfg, s, c), cs[1..], d, clients, k,
                admitted + One(KeyOf(c.q.key) == k && Admits(cfg, s, c)), start, c.q.now);
    }
  }

  lemma {:induction false} RunKeepsTracked(
      cfg: Config, s: Limited, cs: seq<Call>, d: int, clients: set<string>, t: real)
    requires 0.0 <= cfg.rate && 0.0 <= cfg.burst && Tracked(cfg, s, d, clients, t) && Run(cfg, s, cs, d, clients, t)
    ensures Tracked(cfg, Final(cfg, s, cs), d, clients, Finish(cs, t)) && t <= Finish(cs, t)
    decreases |cs|
  {
    if cs != [] {
      ServeKeepsTracked(cfg, s, cs[0], d, clients, t);
      RunKeepsTracked(cfg, Served(cfg, s, cs[0]), cs[1..], d, clients, cs[0].q.now);
    }
  }

  /**
   A window in which client `k` is admitted more than one burst and the rate allow,
   in a run of `clients` on a limiter made at `made`.
   */
  ghost predicate Breaks(cfg: Config, d: int, clients: set<string>, made: int,
                         before: seq<Call>, start: real, window: seq<Call>, k: string)
  {
    var s := Limited(map[], made);
    && (forall c <- before + window :: made <= c.q.seen)
    && Run(cfg, s, before, d, clients, made as real) && Finish(before, made as real) <= start
    && Run(cfg, Final(cfg, s, before), window, d, clients, start)
    && Admitted(cfg, Final(cfg, s, before), window, k) as real >
       Allowance(cfg) + Earned(Finish(window, start) - start, cfg.rate)
  }

  /** What a full bucket gives at once; nothing if the burst is not positive. */
  function Allowance(cfg: Config): real { if cfg.burst <= 0.0 then 0.0 else cfg.burst }

  /** No window of any run admits any client more than one burst and the rate times its length. */
  ghost predicate Bounded(cfg: Config, d: int, clients: set<string>) {
    forall made, before, start, window, k :: !Breaks(cfg, d, clients, made, before, start, window, k)
  }

  lemma SteadyNeverBreaks(cfg: Config, d: int, clients: set<string>, made: int,
                          before: seq<Call>, start: real, window: seq<Call>, k: string)
    requires 0.0 <= cfg.rate && 0.0 <= cfg.burst && Refills(cfg, d) && Roomy(cfg, clients)
    ensures !Breaks(cfg, d, clients, made, before, start, window, k)
  {
    var s := Limited(map[], made);
    if Run(cfg, s, before, d, clients, made as real) && Finish(before, made as real) <= start
       && Run(cfg, Final(cfg, s, before), window, d, clients, start) {
      RunKeepsTracked(cfg, s, before, d, clients, made as real);
      var u := Final(cfg, s, before);
      assert Tracked(cfg, u, d, clients, start);
      assert Earned(0.0, cfg.rate) == 0.0;
      assert Steady(cfg, u.buckets, k, 0, start, start) by {
        if k in u.buckets && u.buckets[k].lastRefill == start {
          assert Earned(start - start, cfg.rate) == 0.0;
        }
      }
      SteadyRun(cfg, u, window, d, clients, k, 0, start, start);
    }
  }

  // ---------------------------------------------------------------------------
  // Runs one after the other

  lemma {:induction false} Joined(cfg: Config, s: Limited, a: seq<Call>, b: seq<Call>, k: string, t: real)
    ensures Final(cfg, s, a + b) == Final(cfg, Final(cfg, s, a), b)
    ensures Admitted(cfg, s, a + b, k) == Admitted(cfg, s, a, k) + Admitted(cfg, Final(cfg, s, a), b, k)
    ensures Finish(a + b, t) == Finish(b, Finish(a, t))
    decreases |a|
  {
    if a == [] {
      assert a + b == b;
    } else {
      assert (a + b)[0] == a[0] && (a + b)[1..] == a[1..] + b;
      Joined(cfg, Served(cfg, s, a[0]), a[1..], b, k, a[0].q.now);
    }
  }

  lemma {:induction false} JoinedRun(cfg: Config, s: Limited, a: seq<Call>, b: seq<Call>,
                                     d: int, clients: set<string>, t: real)
    requires Run(cfg, s, a, d, clients, t) && Run(cfg, Final(cfg, s, a), b, d, clients, Finish(a, t))
    ensures Run(cfg, s, a + b, d, clients, t)
    decreases |a|
  {
    if a == [] {
      assert a + b == b;
    } else {
      assert (a + b)[0] == a[0] && (a + b)[1..] == a[1..] + b;
      JoinedRun(cfg, Served(cfg, s, a[0]), a[1..], b, d, clients, a[0].q.now);
    }
  }

  /** The same call, again and again. */
  function Copies(c: Call, n: nat): (cs: seq<Call>)
    ensures |cs| == n && forall x <- cs :: x == c
  {
    if n == 0 then [] else [c] + Copies(c, n - 1)
  }

  /** A client with `n` tokens spends them at one instant. */
  lemma {:induction false} SpendAll(cfg: Config, s: Limited, c: Call, n: nat, d: int, clients: set<string>)
    requires Prompt(c.q, d) && c.q.born == c.q.now && KeyOf(c.q.key) in clients
    requires c.q.seen - s.lastCleanup < Interval(cfg) && KeyOf(c.q.key) in s.buckets
    requires var b := s.buckets[KeyOf(c.q.key)];
             n as real <= b.tokens <= cfg.burst && b.lastRefill == c.q.now && b.lastSeen == c.q.seen
    ensures var k, v := KeyOf(c.q.key), Final(cfg, s, Copies(c, n));
            && Run(cfg, s, Copies(c, n), d, clients, c.q.now) && Finish(Copies(c, n), c.q.now) == c.q.now
            && Admitted(cfg, s, Copies(c, n), k) == n
            && v.lastCleanup == s.lastCleanup && v.buckets.Keys == s.buckets.Keys
            && (forall x <- s.buckets :: v.buckets[x].lastSeen == s.buckets[x].lastSeen)
    decreases n
  {
    if n > 0 {
      var k := KeyOf(c.q.key);
      var b := s.buckets[k];
      assert Copies(c, n)[1..] == Copies(c, n - 1);
      assert Earned(c.q.now - b.lastRefill, cfg.rate) == 0.0;
      assert b.(lastSeen := c.q.seen) == b;
      var v := Served(cfg, s, c);
      assert v.buckets[k] == b.(tokens := b.tokens - 1.0);
      assert v.buckets.Keys == s.buckets.Keys;
      SpendAll(cfg, v, c, n - 1, d, clients);
    }
  }

  lemma FirstCall(cfg: Config, s: Limited, c: Call)
    requires c.q.born == c.q.now && cfg.burst >= 1.0 && KeyOf(c.q.key) !in Room(cfg, s, c)
    ensures var k, v := KeyOf(c.q.key), Served(cfg, s, c);
            && Admits(cfg, s, c) && v.lastCleanup == Cleaned(cfg, s, c.q.seen).lastCleanup
            && c.q.seen - v.lastCleanup < Interval(cfg)
            && v.buckets == Room(cfg, s, c)[k := Bucket(cfg.burst - 1.0, c.q.now, c.q.seen)]
            && v.buckets.Keys == Room(cfg, s, c).Keys + {k}
  {
    assert Earned(c.q.now - c.q.born, cfg.rate) == 0.0;
  }

  /** A client without a bucket, where there is room for one or made for one, is admitted its whole burst at once. */
  lemma SpendBurst(cfg: Config, s: Limited, c: Call, n: nat, d: int, clients: set<string>)
    requires Prompt(c.q, d) && c.q.born == c.q.now && KeyOf(c.q.key) in clients && Possible(cfg, s, c)
    requires n >= 1 && n as real == cfg.burst && KeyOf(c.q.key) !in Room(cfg, s, c)
    ensures var k, v := KeyOf(c.q.key), Final(cfg, s, Copies(c, n));
            && Run(cfg, s, Copies(c, n), d, clients, c.q.now) && Finish(Copies(c, n), c.q.now) == c.q.now
            && Admitted(cfg, s, Copies(c, n), k) == n
            && v.lastCleanup == Cleaned(cfg, s, c.q.seen).lastCleanup
            && v.buckets.Keys == Room(cfg, s, c).Keys + {k} && v.buckets[k].lastSeen == c.q.seen
            && (forall x <- Room(cfg, s, c) :: v.buckets[x].lastSeen == Room(cfg, s, c)[x].lastSeen)
  {
    FirstCall(cfg, s, c);
    assert Copies(c, n)[1..] == Copies(c, n - 1);
    SpendAll(cfg, Served(cfg, s, c), c, n - 1, d, clients);
  }

  // ---------------------------------------------------------------------------
  // Too short a time to live

  /** At `t`, on a limiter that has not cleaned up since `made`, a client spends its first burst. */
  lemma FirstBurst(cfg: Config, made: int, k: string, n: nat, t: int, d: int, clients: set<string>)
    requires n >= 1 && cfg.burst == n as real && 0 <= t <= d && k in clients && k != "" && -made < Interval(cfg)
    ensures var cs, s := Copies(Call(Request(k, 0, t as real, t as real), ""), n), Limited(map[], made);
            && Run(cfg, s, cs, d, clients, t as real) && Finish(cs, t as real) == t as real
            && Admitted(cfg, s, cs, k) == n
            && Final(cfg, s, cs).buckets.Keys == {k} && Final(cfg, s, cs).buckets[k].lastSeen == 0
            && Final(cfg, s, cs).lastCleanup == made
  {
    var c, s := Call(Request(k, 0, t as real, t as real), ""), Limited(map[], made);
    assert Cleaned(cfg, s, 0) == s && Room(cfg, s, c) == map[];
    SpendBurst(cfg, s, c, n, d, clients);
  }

  /** Forgotten, it spends another. */
  lemma SecondBurst(cfg: Config, s: Limited, k: string, n: nat, again: int, t: real, d: int, clients: set<string>)
    requires n >= 1 && cfg.burst == n as real && 0 <= d && k in clients && k != ""
    requires s.buckets.Keys == {k} && s.buckets[k].lastSeen < again - Ttl(cfg)
    requires again - s.lastCleanup >= Interval(cfg) && t <= again as real
    ensures var cs := Copies(Call(Request(k, again, again as real, again as real), ""), n);
            && Run(cfg, s, cs, d, clients, t) && Finish(cs, t) == again as real && Admitted(cfg, s, cs, k) == n
  {
    var c := Call(Request(k, again, again as real, again as real), "");
    Forgotten(cfg, s, c, k);
    SpendBurst(cfg, s, c, n, d, clients);
    RunFrom(cfg, s, Copies(c, n), d, clients, again as real, t);
    FinishFrom(Copies(c, n), again as real, t);
  }

  /** A client spends its burst, is idle just long enough to be forgotten, and spends another. */
  lemma ForgottenTooSoon(cfg: Config, d: int, clients: set<string>, k: string, n: nat)
      returns (made: int, start: real, window: seq<Call>)
    requires n >= 1 && cfg.burst == n as real && d >= 0 && k in clients && k != ""
    requires !Refills(cfg, d)
    ensures Breaks(cfg, d, clients, made, [], start, window, k)
  {
    var again := Ttl(cfg) + 1;
    var late := if d <= again then d else again;
    made := if again <= Interval(cfg) then again - Interval(cfg) else 0;
    start := late as real;
    var a := Copies(Call(Request(k, 0, start, start), ""), n);
    var b := Copies(Call(Request(k, again, again as real, again as real), ""), n);
    var s := Limited(map[], made);
    FirstBurst(cfg, made, k, n, late, d, clients);
    SecondBurst(cfg, Final(cfg, s, a), k, n, again, start, d, clients);
    window := a + b;
    TooMany(cfg, d, again, late, n);
    JoinedBreaks(cfg, d, clients, made, start, a, b, k);
  }

  lemma JoinedBreaks(cfg: Config, d: int, clients: set<string>, made: int, start: real,
                     a: seq<Call>, b: seq<Call>, k: string)
    requires (forall c <- a :: made <= c.q.seen) && (forall c <- b :: made <= c.q.seen) && made as real <= start
    requires var s := Limited(map[], made); var s1 := Final(cfg, s, a);
             && Run(cfg, s, a, d, clients, start) && Run(cfg, s1, b, d, clients, Finish(a, start))
             && (Admitted(cfg, s, a, k) + Admitted(cfg, s1, b, k)) as real >
                Allowance(cfg) + Earned(Finish(b, Finish(a, start)) - start, cfg.rate)
    ensures Breaks(cfg, d, clients, made, [], start, a + b, k)
  {
    var s := Limited(map[], made);
    JoinedCount(cfg, s, a, b, k, start);
    JoinedRun(cfg, s, a, b, d, clients, start);
    SeenJoined(a, b, made);
    BreaksAtOnce(cfg, d, clients, made, start, a + b, k);
  }

  lemma SeenJoined(a: seq<Call>, b: seq<Call>, made: int)
    requires (forall c <- a :: made <= c.q.seen) && forall c <- b :: made <= c.q.seen
    ensures forall c <- a + b :: made <= c.q.seen
  {
  }

  lemma JoinedCount(cfg: Config, s: Limited, a: seq<Call>, b: seq<Call>, k: string, start: real)
    requires (Admitted(cfg, s, a, k) + Admitted(cfg, Final(cfg, s, a), b, k)) as real >
             Allowance(cfg) + Earned(Finish(b, Finish(a, start)) - start, cfg.rate)
    ensures Admitted(cfg, s, a + b, k) as real > Allowance(cfg) + Earned(Finish(a + b, start) - start, cfg.rate)
  {
    Joined(cfg, s, a, b, k, start);
  }

  /** A window that is the whole run. */
  lemma BreaksAtOnce(cfg: Config, d: int, clients: set<string>, made: int, start: real, window: seq<Call>, k: string)
    requires (forall c <- window :: made <= c.q.seen) && made as real <= start
    requires var s := Limited(map[], made);
             && Run(cfg, s, window, d, clients, start)
             && Admitted(cfg, s, window, k) as real >
                Allowance(cfg) + Earned(Finish(window, start) - start, cfg.rate)
    ensures Breaks(cfg, d, clients, made, [], start, window, k)
  {
    assert [] + window == window;
  }

  lemma TooMany(cfg: Config, d: int, again: int, late: int, n: nat)
    requires again == Ttl(cfg) + 1 && late == (if d <= again then d else again) && n >= 1
    requires cfg.burst == n as real && !Refills(cfg, d)
    ensures (n + n) as real > cfg.burst + Earned(again as real - late as real, cfg.rate)
  {
    assert (again - late) as real == again as real - late as real;
    assert (n + n) as real == n as real + n as real;
  }

  lemma Forgotten(cfg: Config, s: Limited, c: Call, k: string)
    requires s.buckets.Keys == {k} && s.buckets[k].lastSeen < c.q.seen - Ttl(cfg)
    requires c.q.seen - s.lastCleanup >= Interval(cfg)
    ensures Cleaned(cfg, s, c.q.seen).buckets == map[] && Room(cfg, s, c) == map[] && Possible(cfg, s, c)
  {
    assert Cleaned(cfg, s, c.q.seen).buckets == map[];
  }

  lemma RunFrom(cfg: Config, s: Limited, cs: seq<Call>, d: int, clients: set<string>, t: real, u: real)
    requires Run(cfg, s, cs, d, clients, t) && u <= t
    ensures Run(cfg, s, cs, d, clients, u)
  {
  }

  lemma FinishFrom(cs: seq<Call>, t: real, u: real)
    requires cs != []
    ensures Finish(cs, t) == Finish(cs, u)
  {
  }

  // ---------------------------------------------------------------------------
  // Too many clients

  /** All buckets seen at time zero, and no cleanup due. */
  ghost predicate AtZero(s: Limited) { s.lastCleanup == 0 && forall x <- s.buckets :: s.buckets[x].lastSeen == 0 }

  function Knock(key: string, victim: string): Call { Call(Request(key, 0, 0.0, 0.0), victim) }

  function Knocks(keys: seq<string>, victim: string): (cs: seq<Call>)
    ensures |cs| == |keys| && forall c <- cs :: c.q.seen == 0
  {
    if keys == [] then [] else [Knock(keys[0], victim)] + Knocks(keys[1..], victim)
  }

  lemma KnockAtZero(cfg: Config, s: Limited, key: string, victim: string)
    requires AtZero(s) && key != "" && cfg.burst >= 1.0 && key !in s.buckets
    requires Crowded(cfg, s.buckets, key) ==> victim in s.buckets
    ensures var c := Knock(key, victim);
            && Possible(cfg, s, c) && AtZero(Served(cfg, s, c)) && Admits(cfg, s, c)
            && Room(cfg, s, c) == (if Crowded(cfg, s.buckets, key) then s.buckets - {victim} else s.buckets)
            && Served(cfg, s, c).buckets.Keys == Room(cfg, s, c).Keys + {key}
  {
    assert Cleaned(cfg, s, 0) == s;
    FirstCall(cfg, s, Knock(key, victim));
  }

  ghost predicate Apart(keys: seq<string>, bs: map<string, Bucket>) {
    (forall i, j :: 0 <= i < j < |keys| ==> keys[i] != keys[j]) && forall x <- keys :: x !in bs && x != ""
  }

  /** New clients come until the last of them pushes `k` out. */
  lemma {:induction false} PushOut(cfg: Config, s: Limited, keys: seq<string>, k: string, d: int, clients: set<string>)
    requires AtZero(s) && cfg.burst >= 1.0 && k in s.buckets && keys != [] && Apart(keys, s.buckets)
    requires cfg.maxClients > 0 && |s.buckets| + |keys| == cfg.maxClients + 1
    requires d >= 0 && forall x <- keys :: x in clients
    ensures var cs := Knocks(keys, k); var v := Final(cfg, s, cs);
            && Run(cfg, s, cs, d, clients, 0.0) && Finish(cs, 0.0) == 0.0 && Admitted(cfg, s, cs, k) == 0
            && AtZero(v) && k !in v.buckets && |v.buckets| == cfg.maxClients
    decreases |keys|
  {
    var cs, c := Knocks(keys, k), Knock(keys[0], k);
    assert keys[0] in keys && cs[1..] == Knocks(keys[1..], k);
    KnockAtZero(cfg, s, keys[0], k);
    var v := Served(cfg, s, c);
    CountAfter(cfg, s, c, keys[0], k);
    if |keys| > 1 {
      assert forall x <- keys[1..] :: x in keys && x != keys[0];
      PushOut(cfg, v, keys[1..], k, d, clients);
    } else {
      assert keys[1..] == [];
    }
  }

  lemma CountAfter(cfg: Config, s: Limited, c: Call, key: string, victim: string)
    requires key !in s.buckets && (Crowded(cfg, s.buckets, key) ==> victim in s.buckets)
    requires Room(cfg, s, c) == (if Crowded(cfg, s.buckets, key) then s.buckets - {victim} else s.buckets)
    requires Served(cfg, s, c).buckets.Keys == Room(cfg, s, c).Keys + {key}
    ensures |Served(cfg, s, c).buckets| == |s.buckets| + if Crowded(cfg, s.buckets, key) then 0 else 1
  {
    var left, v := Room(cfg, s, c), Served(cfg, s, c);
    assert |v.buckets| == |v.buckets.Keys| && |left| == |left.Keys| && |s.buckets| == |s.buckets.Keys|;
    if Crowded(cfg, s.buckets, key) {
      assert left.Keys == s.buckets.Keys - {victim};
    }
  }

  /** A client spends its burst, and as many others come as the limiter has room for. */
  lemma SpentThenPushed(cfg: Config, d: int, clients: set<string>, keys: seq<string>, k: string, n: nat)
      returns (cs: seq<Call>, v: Limited)
    requires n >= 1 && cfg.burst == n as real && d >= 0 && cfg.maxClients > 0 && |keys| == cfg.maxClients
    requires k in clients && k != "" && Apart(keys, map[]) && k !in keys && forall x <- keys :: x in clients
    ensures var s := Limited(map[], 0);
            && v == Final(cfg, s, cs) && (forall c <- cs :: 0 <= c.q.seen)
            && Run(cfg, s, cs, d, clients, 0.0) && Finish(cs, 0.0) == 0.0 && Admitted(cfg, s, cs, k) == n
    ensures AtZero(v) && k !in v.buckets && |v.buckets| == cfg.maxClients
  {
    var s, a, b := Limited(map[], 0), Copies(Knock(k, ""), n), Knocks(keys, k);
    FirstBurst(cfg, 0, k, n, 0, d, clients);
    assert Call(Request(k, 0, 0 as real, 0 as real), "") == Knock(k, "");
    var s1 := Final(cfg, s, a);
    assert |s1.buckets| == |s1.buckets.Keys| == 1;
    PushOut(cfg, s1, keys, k, d, clients);
    Joined(cfg, s, a, b, k, 0.0);
    JoinedRun(cfg, s, a, b, d, clients, 0.0);
    cs, v := a + b, Final(cfg, s1, b);
  }

  lemma OneKnock(cfg: Config, s: Limited, k: string, victim: string, d: int, clients: set<string>)
    requires AtZero(s) && k != "" && k in clients && cfg.burst >= 1.0 && d >= 0
    requires k !in s.buckets && victim in s.buckets
    ensures var cs := [Knock(k, victim)];
            Run(cfg, s, cs, d, clients, 0.0) && Finish(cs, 0.0) == 0.0 && Admitted(cfg, s, cs, k) == 1
  {
    KnockAtZero(cfg, s, k, victim);
    assert [Knock(k, victim)][1..] == [];
  }

  /** With more clients than the limiter keeps, one is pushed out at once and comes back to a full bucket. */
  lemma PushedOut(cfg: Config, d: int, clients: set<string>, keys: seq<string>, k: string, n: nat)
      returns (window: seq<Call>)
    requires n >= 1 && cfg.burst == n as real && d >= 0 && cfg.maxClients > 0 && |keys| == cfg.maxClients
    requires k in clients && k != "" && Apart(keys, map[]) && k !in keys && forall x <- keys :: x in clients
    ensures Breaks(cfg, d, clients, 0, [], 0.0, window, k)
  {
    var cs, v := SpentThenPushed(cfg, d, clients, keys, k, n);
    var victim := SomeKey(v.buckets);
    OneKnock(cfg, v, k, victim, d, clients);
    OneTooMany(cfg, d, clients, cs, Knock(k, victim), k, n);
    window := cs + [Knock(k, victim)];
  }

  /** At one moment, one call more than the burst. */
  lemma OneTooMany(cfg: Config, d: int, clients: set<string>, cs: seq<Call>, c: Call, k: string, n: nat)
    requires cfg.burst == n as real && (forall c <- cs :: 0 <= c.q.seen) && 0 <= c.q.seen
    requires var s := Limited(map[], 0); var v := Final(cfg, s, cs);
             && Run(cfg, s, cs, d, clients, 0.0) && Finish(cs, 0.0) == 0.0 && Admitted(cfg, s, cs, k) == n
             && Run(cfg, v, [c], d, clients, 0.0) && Finish([c], 0.0) == 0.0 && Admitted(cfg, v, [c], k) == 1
    ensures Breaks(cfg, d, clients, 0, [], 0.0, cs + [c], k)
  {
    assert Earned(0.0 - 0.0, cfg.rate) == 0.0;
    JoinedBreaks(cfg, d, clients, 0, 0.0, cs, [c], k);
  }

  lemma SomeKey(bs: map<string, Bucket>) returns (k: string)
    requires |bs| > 0
    ensures k in bs
  {
    assert |bs| == |bs.Keys|;
    k :| k in bs.Keys;
  }

  lemma {:induction false} PickApart(from: set<string>, n: nat) returns (keys: seq<string>)
    requires n <= |from| && "" !in from
    ensures |keys| == n && Apart(keys, map[]) && forall x <- keys :: x in from
  {
    if n == 0 {
      keys := [];
    } else {
      var x :| x in from;
      var rest := PickApart(from - {x}, n - 1);
      keys := [x] + rest;
    }
  }

  lemma {:induction false} NothingAdmitted(cfg: Config, s: Limited, cs: seq<Call>, k: string)
    requires cfg.burst < 1.0
    ensures Admitted(cfg, s, cs, k) == 0
    decreases |cs|
  {
    if cs != [] {
      NothingAdmitted(cfg, Served(cfg, s, cs[0]), cs[1..], k);
    }
  }

  lemma {:induction false} RunEndsLater(cfg: Config, s: Limited, cs: seq<Call>, d: int, clients: set<string>, t: real)
    requires Run(cfg, s, cs, d, clients, t)
    ensures t <= Finish(cs, t)
    decreases |cs|
  {
    if cs != [] {
      RunEndsLater(cfg, Served(cfg, s, cs[0]), cs[1..], d, clients, cs[0].q.now);
    }
  }

  lemma NoBurstNeverBreaks(cfg: Config, d: int, clients: set<string>, made: int,
                           before: seq<Call>, start: real, window: seq<Call>, k: string)
    requires 0.0 <= cfg.rate && cfg.burst <= 0.0
    ensures !Breaks(cfg, d, clients, made, before, start, window, k)
  {
    var s := Final(cfg, Limited(map[], made), before);
    if Run(cfg, s, window, d, clients, start) {
      NothingAdmitted(cfg, s, window, k);
      RunEndsLater(cfg, s, window, d, clients, start);
      EarnedNonNegative(Finish(window, start) - start, cfg.rate);
    }
  }

  /**
   Every window of every run of these clients stays within one burst and the rate
   times its length if and only if there is no burst at all, or a bucket refills
   before it can be forgotten and the limiter has room for all of them.
   */
  lemma BoundedIff(cfg: Config, d: int, clients: set<string>, n: int)
    requires 0.0 <= cfg.rate && cfg.burst == n as real && d >= 0
    requires clients != {} && "" !in clients
    ensures Bounded(cfg, d, clients) <==> n <= 0 || (Refills(cfg, d) && Roomy(cfg, clients))
  {
    if n <= 0 {
      forall made, before, start, window, k ensures !Breaks(cfg, d, clients, made, before, start, window, k) {
        NoBurstNeverBreaks(cfg, d, clients, made, before, start, window, k);
      }
    } else if Refills(cfg, d) && Roomy(cfg, clients) {
      forall made, before, start, window, k ensures !Breaks(cfg, d, clients, made, before, start, window, k) {
        SteadyNeverBreaks(cfg, d, clients, made, before, start, window, k);
      }
    } else {
      var k :| k in clients;
      if !Refills(cfg, d) {
        var made, start, window := ForgottenTooSoon(cfg, d, clients, k, n);
      } else {
        var keys := PickApart(clients - {k}, cfg.maxClients);
        var window := PushedOut(cfg, d, clients, keys, k, n);
      }
    }
  }

  // ---------------------------------------------------------------------------
  // What a cleanup does, told without the functions that do it

  /** Nothing goes before the interval is over; then just what was idle too long. */
  lemma CleanupGoesBy(cfg: Config, s: Limited, seen: int, k: string)
    ensures var interval := if cfg.cleanupInterval > 0 then cfg.cleanupInterval else DEFAULT_CLEANUP_INTERVAL;
            var ttl := if cfg.clientTtl > 0 then cfg.clientTtl else DEFAULT_CLIENT_TTL;
            var t := Cleaned(cfg, s, seen);
            if seen < s.lastCleanup + interval then t == s
            else && t.lastCleanup == seen
                 && (k in t.buckets <==> k in s.buckets && seen - s.buckets[k].lastSeen <= ttl)
                 && (k in t.buckets ==> t.buckets[k] == s.buckets[k])
  {
  }

  // ---------------------------------------------------------------------------
  // From below

  /** What is known of a client that took its last token, or was refused, at `last`. */
  ghost predicate Rested(bs: map<string, Bucket>, k: string, last: real) {
    k in bs ==> 0.0 <= bs[k].tokens && bs[k].lastRefill <= last
  }

  /** Every call of the client comes at least one token's time after its call before. */
  predicate Spaced(cs: seq<Call>, k: string, last: real, rate: real)
    decreases |cs|
  {
    cs == [] ||
    (if KeyOf(cs[0].q.key) != k then Spaced(cs[1..], k, last, rate)
     else Earned(cs[0].q.now - last, rate) >= 1.0 && Spaced(cs[1..], k, cs[0].q.now, rate))
  }

  function CallsOf(cs: seq<Call>, k: string): nat {
    if cs == [] then 0 else One(KeyOf(cs[0].q.key) == k) + CallsOf(cs[1..], k)
  }

  lemma RestedAdmits(cfg: Config, s: Limited, c: Call, last: real)
    requires 0.0 <= cfg.rate && 1.0 <= cfg.burst && Rested(s.buckets, KeyOf(c.q.key), last)
    requires Earned(c.q.now - last, cfg.rate) >= 1.0 && c.q.born <= c.q.now
    ensures Admits(cfg, s, c) && Rested(Served(cfg, s, c).buckets, KeyOf(c.q.key), c.q.now)
  {
    var k, left := KeyOf(c.q.key), Room(cfg, s, c);
    if k in left {
      RoomIsPart(cfg, s, c, k);
      EarnedAtLeast(c.q.now - last, c.q.now - left[k].lastRefill, cfg.rate);
    } else {
      EarnedNonNegative(c.q.now - c.q.born, cfg.rate);
    }
  }

  lemma OthersLeaveRested(cfg: Config, s: Limited, c: Call, k: string, last: real)
    requires KeyOf(c.q.key) != k && Rested(s.buckets, k, last)
    ensures Rested(Served(cfg, s, c).buckets, k, last)
  {
    RoomIsPart(cfg, s, c, k);
  }

  /** A client that keeps to the rate is always admitted, whoever else comes and whatever is forgotten. */
  lemma {:induction false} SpacedAlwaysAdmitted(cfg: Config, s: Limited, cs: seq<Call>, k: string, last: real)
    requires 0.0 <= cfg.rate && 1.0 <= cfg.burst && Rested(s.buckets, k, last) && Spaced(cs, k, last, cfg.rate)
    requires forall c <- cs :: c.q.born <= c.q.now
    ensures Admitted(cfg, s, cs, k) == CallsOf(cs, k)
    decreases |cs|
  {
    if cs != [] {
      var c := cs[0];
      assert c in cs && forall d <- cs[1..] :: d in cs;
      if KeyOf(c.q.key) == k {
        RestedAdmits(cfg, s, c, last);
        SpacedAlwaysAdmitted(cfg, Served(cfg, s, c), cs[1..], k, c.q.now);
      } else {
        OthersLeaveRested(cfg, s, c, k, last);
        SpacedAlwaysAdmitted(cfg, Served(cfg, s, c), cs[1..], k, last);
      }
    }
  }
}
