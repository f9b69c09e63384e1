/** The per-client token bucket. A token is counted as `windowMs` units, so that one millisecond refills exactly
    `capacity` units and all arithmetic is on integers. */
module RateLimiting {
  import opened Common

  datatype Config = Config(capacity: int, windowSeconds: int) {
    predicate Valid() {
      capacity >= 1 && windowSeconds >= 1
    }

    /** The length of the window, and the price of one request. */
    function WindowMs(): int {
      windowSeconds * 1000
    }

    function Full(): int {
      capacity * WindowMs()
    }
  }

  datatype Bucket = Bucket(units: int, lastRefillMs: int)

  datatype Decision = Admitted | Rejected(retryAfterSeconds: int)

  datatype Request = Request(key: string, at: int)

  type Buckets = map<string, Bucket>

  // ---------------------------------------------------------------- one bucket

  function Refilled(cfg: Config, b: Bucket, now: int): Bucket {
    if now > b.lastRefillMs then
      Bucket(Min(cfg.Full(), b.units + (now - b.lastRefillMs) * cfg.capacity), now)
    else b
  }

  function CeilDiv(a: int, b: int): int
    requires b > 0
  {
    (a + b - 1) / b
  }

  function Decide(cfg: Config, b: Bucket): Decision
    requires cfg.Valid()
  {
    if b.units >= cfg.WindowMs() then Admitted
    else Rejected(Max(1, CeilDiv(cfg.WindowMs() - b.units, cfg.capacity * 1000)))
  }

  function Charged(cfg: Config, b: Bucket): Bucket {
    if b.units >= cfg.WindowMs() then b.(units := b.units - cfg.WindowMs()) else b
  }

  // ---------------------------------------------------------------- the map of buckets

  /** The bucket a request meets: a full one if the client is new, else its bucket refilled. */
  function Met(cfg: Config, m: Buckets, r: Request): Bucket {
    if r.key in m then Refilled(cfg, m[r.key], r.at) else Bucket(cfg.Full(), r.at)
  }

  function Next(cfg: Config, m: Buckets, r: Request): Buckets {
    m[r.key := Charged(cfg, Met(cfg, m, r))]
  }

  function Decisions(cfg: Config, m: Buckets, rs: seq<Request>): (ds: seq<Decision>)
    requires cfg.Valid()
    ensures |ds| == |rs|
    decreases |rs|
  {
    if |rs| == 0 then [] else [Decide(cfg, Met(cfg, m, rs[0]))] + Decisions(cfg, Next(cfg, m, rs[0]), rs[1..])
  }

  /** The middleware: `buckets` is the closure's Map, updated in place. */
  class RateLimiter {
    const cfg: Config
    var buckets: Buckets

    constructor (cfg: Config)
      requires cfg.Valid()
      ensures this.cfg == cfg && buckets == map[]
    {
      this.cfg := cfg;
      buckets := map[];
    }

    method GetOrRefillBucket(key: string, nowMs: int) returns (b: Bucket)
      modifies this
      ensures b == Met(cfg, old(buckets), Request(key, nowMs)) && buckets == old(buckets)[key := b]
      // a new client's bucket is full; a known one gains its rate for the time elapsed, up to full, and nothing when
      // the clock stands still or has gone back
      ensures key !in old(buckets) ==> b == Bucket(cfg.capacity * (cfg.windowSeconds * 1000), nowMs)
      ensures key in old(buckets) && nowMs <= old(buckets)[key].lastRefillMs ==> b == old(buckets)[key]
      ensures key in old(buckets) && nowMs > old(buckets)[key].lastRefillMs ==>
        var filled := old(buckets)[key].units + (nowMs - old(buckets)[key].lastRefillMs) * cfg.capacity;
        var full := cfg.capacity * (cfg.windowSeconds * 1000);
        b == Bucket(if filled < full then filled else full, nowMs)
    {
      if key !in buckets {
        b := Bucket(cfg.Full(), nowMs);
        buckets := buckets[key := b];
        return;
      }
      b := buckets[key];
      var elapsedMs := nowMs - b.lastRefillMs;
      if elapsedMs > 0 {
        b := Bucket(Min(cfg.Full(), b.units + elapsedMs * cfg.capacity), nowMs);
      }
      buckets := buckets[key := b];
    }

    method Handle(key: string, nowMs: int) returns (d: Decision)
      requires cfg.Valid()
      modifies this
      ensures d == Decide(cfg, Met(cfg, old(buckets), Request(key, nowMs)))
      ensures buckets == Next(cfg, old(buckets), Request(key, nowMs))
      // a request costs `windowSeconds * 1000` units, which only an admitted one pays
      ensures var b := Met(cfg, old(buckets), Request(key, nowMs));
        var price := cfg.windowSeconds * 1000;
        && (d.Admitted? <==> b.units >= price)
        && buckets == old(buckets)[key := if d.Admitted? then Bucket(b.units - price, b.lastRefillMs) else b]
    {
      var bucket := GetOrRefillBucket(key, nowMs);
      if bucket.units >= cfg.WindowMs() {
        buckets := buckets[key := bucket.(units := bucket.units - cfg.WindowMs())];
        return Admitted;
      }
      var unitsNeeded := cfg.WindowMs() - bucket.units;
      d := Rejected(Max(1, CeilDiv(unitsNeeded, cfg.capacity * 1000)));
    }

    /** A whole sequence of requests, whatever the clock does. */
    method HandleAll(rs: seq<Request>) returns (ds: seq<Decision>)
      requires cfg.Valid()
      modifies this
      ensures ds == Decisions(cfg, old(buckets), rs)
    {
      ds := [];
      for i := 0 to |rs|
        invariant |ds| == i
        invariant ds + Decisions(cfg, buckets, rs[i..]) == Decisions(cfg, old(buckets), rs)
      {
        var d := Handle(rs[i].key, rs[i].at);
        assert rs[i..][1..] == rs[i + 1..] && Request(rs[i].key, rs[i].at) == rs[i];
        ds := ds + [d];
      }
      assert rs[|rs|..] == [];
    }
  }

  /** createRateLimiter: throws unless both options are positive. */
  method CreateRateLimiter(capacity: int, windowSeconds: int) returns (r: Result<RateLimiter>)
    ensures r.Ok? <==> capacity > 0 && windowSeconds > 0
    ensures r.Ok? ==> fresh(r.value) && r.value.cfg == Config(capacity, windowSeconds) && r.value.buckets == map[]
  {
    if capacity <= 0 {
      return Err("createRateLimiter: capacity must be > 0");
    }
    if windowSeconds <= 0 {
      return Err("createRateLimiter: windowSeconds must be > 0");
    }
    var limiter := new RateLimiter(Config(capacity, windowSeconds));
    r := Ok(limiter);
  }

  // ---------------------------------------------------------------- the window bound

  predicate Monotone(rs: seq<Request>) {
    forall i, k :: 0 <= i < k < |rs| ==> rs[i].at <= rs[k].at
  }

  predicate NotBefore(rs: seq<Request>, s: int) {
    forall i :: 0 <= i < |rs| ==> s <= rs[i].at
  }

  /** No bucket was refilled later than `now`, and none is over-full or in debt. */
  ghost predicate Sane(cfg: Config, m: Buckets, now: int) {
    forall k :: k in m ==> m[k].lastRefillMs <= now && 0 <= m[k].units <= cfg.Full()
  }

  /** This request is one of `key`'s, at a time in [s, t], and is admitted. */
  predicate Counts(cfg: Config, m: Buckets, r: Request, key: string, s: int, t: int)
    requires cfg.Valid()
  {
    r.key == key && s <= r.at <= t && Decide(cfg, Met(cfg, m, r)).Admitted?
  }

  /** Requests of `key` admitted at times in [s, t]. */
  function AdmittedBetween(cfg: Config, m: Buckets, rs: seq<Request>, key: string, s: int, t: int): nat
    requires cfg.Valid()
    decreases |rs|
  {
    if |rs| == 0 then 0
    else Indicator(Counts(cfg, m, rs[0], key, s, t)) + AdmittedBetween(cfg, Next(cfg, m, rs[0]), rs[1..], key, s, t)
  }

  /** The units that those requests paid. */
  function PaidBetween(cfg: Config, m: Buckets, rs: seq<Request>, key: string, s: int, t: int): int
    requires cfg.Valid()
    decreases |rs|
  {
    if |rs| == 0 then 0
    else
      (if Counts(cfg, m, rs[0], key, s, t) then cfg.WindowMs() else 0)
      + PaidBetween(cfg, Next(cfg, m, rs[0]), rs[1..], key, s, t)
  }

  lemma {:induction false} PaidIsAdmitted(cfg: Config, m: Buckets, rs: seq<Request>, key: string, s: int, t: int)
    requires cfg.Valid()
    ensures PaidBetween(cfg, m, rs, key, s, t) == AdmittedBetween(cfg, m, rs, key, s, t) * cfg.WindowMs()
    decreases |rs|
  {
    if |rs| > 0 {
      PaidIsAdmitted(cfg, Next(cfg, m, rs[0]), rs[1..], key, s, t);
      Distribute(Indicator(Counts(cfg, m, rs[0], key, s, t)),
        AdmittedBetween(cfg, Next(cfg, m, rs[0]), rs[1..], key, s, t), cfg.WindowMs());
    }
  }

  lemma Distribute(a: int, b: int, c: int)
    ensures (a + b) * c == a * c + b * c
  {
  }

  lemma MetSane(cfg: Config, m: Buckets, r: Request, now: int)
    requires cfg.Valid() && Sane(cfg, m, now) && now <= r.at
    ensures 0 <= Met(cfg, m, r).units <= cfg.Full() && Met(cfg, m, r).lastRefillMs == r.at
    ensures Sane(cfg, Next(cfg, m, r), r.at)
  {
    assert cfg.Full() >= 0;
    if r.key in m && r.at > m[r.key].lastRefillMs {
      assert (r.at - m[r.key].lastRefillMs) * cfg.capacity >= 0;
    }
  }

  /** Between two moments a bucket gains at most the refill of the time between. */
  lemma LevelGain(cfg: Config, m: Buckets, key: string, s: int, a: int)
    requires cfg.Valid() && Sane(cfg, m, s) && s <= a
    ensures Met(cfg, m, Request(key, a)).units
      == Min(cfg.Full(), Met(cfg, m, Request(key, s)).units + (a - s) * cfg.capacity)
  {
    MulLeq(0, a - s, cfg.capacity);
    if key in m {
      var last := m[key].lastRefillMs;
      MulLeq(0, s - last, cfg.capacity);
      Distribute(s - last, a - s, cfg.capacity);
      RefillTwice(cfg.Full(), m[key].units, (s - last) * cfg.capacity, (a - s) * cfg.capacity);
    }
  }

  lemma RefillTwice(full: int, units: int, first: int, second: int)
    requires units <= full && first >= 0 && second >= 0
    ensures Min(full, Min(full, units + first) + second) == Min(full, units + (first + second))
  {
  }

  /** What one request at a moment in [s, t] pays comes out of the client's level at that moment. */
  lemma PaysFromLevel(cfg: Config, m: Buckets, r: Request, key: string, s: int, t: int)
    requires cfg.Valid() && Sane(cfg, m, r.at) && s <= r.at <= t
    ensures Met(cfg, Next(cfg, m, r), Request(key, r.at)).units
      + (if Counts(cfg, m, r, key, s, t) then cfg.WindowMs() else 0) == Met(cfg, m, Request(key, r.at)).units
  {
    if r.key == key {
      assert r == Request(key, r.at);
    }
  }

  lemma {:induction false} FromLevel(cfg: Config, m: Buckets, rs: seq<Request>, key: string, s: int, t: int)
    requires cfg.Valid() && Sane(cfg, m, s) && Monotone(rs) && NotBefore(rs, s) && s <= t
    ensures PaidBetween(cfg, m, rs, key, s, t) <= Met(cfg, m, Request(key, s)).units + (t - s) * cfg.capacity
    decreases |rs|
  {
    MetSane(cfg, m, Request(key, s), s);
    assert (t - s) * cfg.capacity >= 0;
    if |rs| > 0 {
      var r := rs[0];
      if r.at <= t {
        var m' := Next(cfg, m, r);
        MetSane(cfg, m, r, s);
        LevelGain(cfg, m, key, s, r.at);
        FromLevel(cfg, m', rs[1..], key, r.at, t);
        FromLater(cfg, m', rs[1..], key, s, r.at, t);
        PaysFromLevel(cfg, m, r, key, s, t);
        Distribute(r.at - s, t - r.at, cfg.capacity);
      } else {
        NoneAfter(cfg, m, rs, key, s, t);
      }
    }
  }

  /** Moving the start of the interval up to the first request counts the same requests. */
  lemma {:induction false} FromLater(cfg: Config, m: Buckets, rs: seq<Request>, key: string, s: int, s': int, t: int)
    requires cfg.Valid() && NotBefore(rs, s') && s <= s'
    ensures PaidBetween(cfg, m, rs, key, s, t) == PaidBetween(cfg, m, rs, key, s', t)
    decreases |rs|
  {
    if |rs| > 0 {
      FromLater(cfg, Next(cfg, m, rs[0]), rs[1..], key, s, s', t);
    }
  }

  lemma {:induction false} NoneAfter(cfg: Config, m: Buckets, rs: seq<Request>, key: string, s: int, t: int)
    requires cfg.Valid() && forall i :: 0 <= i < |rs| ==> t < rs[i].at
    ensures PaidBetween(cfg, m, rs, key, s, t) == 0
    decreases |rs|
  {
    if |rs| > 0 {
      NoneAfter(cfg, Next(cfg, m, rs[0]), rs[1..], key, s, t);
    }
  }

  lemma {:induction false} AnyStart(cfg: Config, m: Buckets, rs: seq<Request>, key: string, now: int, s: int, t: int)
    requires cfg.Valid() && Sane(cfg, m, now) && Monotone(rs) && NotBefore(rs, now) && s <= t
    ensures PaidBetween(cfg, m, rs, key, s, t) <= cfg.Full() + (t - s) * cfg.capacity
    decreases |rs|
  {
    MulLeq(0, t - s, cfg.capacity);
    if |rs| > 0 {
      var r := rs[0];
      if r.at < s {
        MetSane(cfg, m, r, now);
        AnyStart(cfg, Next(cfg, m, r), rs[1..], key, r.at, s, t);
      } else if r.at <= t {
        MetSane(cfg, m, Request(key, r.at), now);
        FromLevel(cfg, m, rs, key, r.at, t);
        FromLater(cfg, m, rs, key, s, r.at, t);
        MulLeq(t - r.at, t - s, cfg.capacity);
      } else {
        NoneAfter(cfg, m, rs, key, s, t);
      }
    }
  }

  lemma Cancel(a: int, b: int, w: int)
    requires w > 0 && a * w < b * w
    ensures a < b
  {
  }

  lemma DivideBound(n: int, full: int, extra: int, w: int)
    requires w > 0 && n * w <= full * w + extra
    ensures n <= full + extra / w
  {
    Distribute(full, extra / w + 1, w);
    assert extra < (extra / w + 1) * w;
    Cancel(n, full + extra / w + 1, w);
  }

  /** In every interval [s, t] of every run with a monotone clock, a client gets at most `capacity` requests
      plus one for each `windowMs / capacity` of the interval. */
  lemma WindowBound(cfg: Config, rs: seq<Request>, key: string, s: int, t: int)
    requires cfg.Valid() && Monotone(rs) && s <= t
    ensures AdmittedBetween(cfg, map[], rs, key, s, t)
      <= cfg.capacity + (t - s) * cfg.capacity / (cfg.windowSeconds * 1000)
  {
    var start := if |rs| == 0 then s else rs[0].at;
    AnyStart(cfg, map[], rs, key, start, s, t);
    assert (t - s) * cfg.capacity >= 0;
    PaidIsAdmitted(cfg, map[], rs, key, s, t);
    DivideBound(AdmittedBetween(cfg, map[], rs, key, s, t), cfg.capacity, (t - s) * cfg.capacity, cfg.WindowMs());
  }

  // ---------------------------------------------------------------- a clock that goes backwards

  predicate Within(rs: seq<Request>, lo: int, hi: int) {
    forall i :: 0 <= i < |rs| ==> lo <= rs[i].at <= hi
  }

  /** Refilling now and letting the rest of the time refill later yields no more than refilling for all of it. */
  lemma RefillInTwo(full: int, units: int, last: int, at: int, hi: int, capacity: int)
    requires last <= at <= hi && capacity >= 0
    ensures Min(full, units + (at - last) * capacity) + (hi - at) * capacity <= units + (hi - last) * capacity
    ensures units >= 0 && full >= 0 ==> Min(full, units + (at - last) * capacity) >= 0
  {
    MulLeq(0, at - last, capacity);
    Distribute(at - last, hi - at, capacity);
  }

  /** What one request pays comes out of the client's bucket and the refill still to come. */
  lemma PaysFromBucket(cfg: Config, m: Buckets, r: Request, key: string, lo: int, hi: int)
    requires cfg.Valid() && lo <= r.at <= hi && key in m && m[key].units >= 0 && m[key].lastRefillMs <= hi
    ensures var m' := Next(cfg, m, r);
      && key in m' && m'[key].units >= 0 && m'[key].lastRefillMs <= hi
      && (if Counts(cfg, m, r, key, lo, hi) then cfg.WindowMs() else 0)
         + m'[key].units + (hi - m'[key].lastRefillMs) * cfg.capacity
         <= m[key].units + (hi - m[key].lastRefillMs) * cfg.capacity
  {
    var last := m[key].lastRefillMs;
    if r.key == key && r.at > last {
      MulLeq(0, cfg.capacity, cfg.WindowMs());
      RefillInTwo(cfg.Full(), m[key].units, last, r.at, hi, cfg.capacity);
    }
  }

  lemma {:induction false} FromBucket(cfg: Config, m: Buckets, rs: seq<Request>, key: string, lo: int, hi: int)
    requires cfg.Valid() && Within(rs, lo, hi)
    requires key in m && m[key].units >= 0 && m[key].lastRefillMs <= hi
    ensures PaidBetween(cfg, m, rs, key, lo, hi) <= m[key].units + (hi - m[key].lastRefillMs) * cfg.capacity
    decreases |rs|
  {
    MulLeq(0, hi - m[key].lastRefillMs, cfg.capacity);
    if |rs| > 0 {
      PaysFromBucket(cfg, m, rs[0], key, lo, hi);
      FromBucket(cfg, Next(cfg, m, rs[0]), rs[1..], key, lo, hi);
    }
  }

  /** The time of the client's first request, at which its bucket is created. */
  function CreatedAt(rs: seq<Request>, key: string): int
    requires exists i :: 0 <= i < |rs| && rs[i].key == key
  {
    if rs[0].key == key then rs[0].at else CreatedAt(rs[1..], key)
  }

  lemma {:induction false} FromCreation(cfg: Config, m: Buckets, rs: seq<Request>, key: string, lo: int, hi: int)
    requires cfg.Valid() && Within(rs, lo, hi) && key !in m
    requires exists i :: 0 <= i < |rs| && rs[i].key == key
    ensures CreatedAt(rs, key) <= hi
    ensures PaidBetween(cfg, m, rs, key, lo, hi) <= cfg.Full() + (hi - CreatedAt(rs, key)) * cfg.capacity
    decreases |rs|
  {
    var r := rs[0];
    if r.key == key {
      assert cfg.Full() >= cfg.WindowMs();
      FromBucket(cfg, Next(cfg, m, r), rs[1..], key, lo, hi);
    } else {
      FromCreation(cfg, Next(cfg, m, r), rs[1..], key, lo, hi);
    }
  }

  /** However the clock jumps, a client's admitted requests stay within the bound that runs from the creation
      of its bucket to the highest clock value seen. */
  lemma BackwardClockBound(cfg: Config, rs: seq<Request>, key: string, lo: int, hi: int)
    requires cfg.Valid() && Within(rs, lo, hi)
    requires exists i :: 0 <= i < |rs| && rs[i].key == key
    ensures AdmittedBetween(cfg, map[], rs, key, lo, hi)
      <= cfg.capacity + (hi - CreatedAt(rs, key)) * cfg.capacity / (cfg.windowSeconds * 1000)
  {
    FromCreation(cfg, map[], rs, key, lo, hi);
    PaidIsAdmitted(cfg, map[], rs, key, lo, hi);
    DivideBound(AdmittedBetween(cfg, map[], rs, key, lo, hi), cfg.capacity,
      (hi - CreatedAt(rs, key)) * cfg.capacity, cfg.WindowMs());
  }

  // ---------------------------------------------------------------- a burst

  /** n requests of one client at one moment. */
  function Burst(r: Request, n: nat): (rs: seq<Request>)
    ensures |rs| == n
  {
    if n == 0 then [] else [r] + Burst(r, n - 1)
  }

  /** A client with u whole tokens gets exactly the first u requests of a burst. */
  lemma {:induction false} BurstFrom(cfg: Config, m: Buckets, r: Request, n: nat, u: nat)
    requires cfg.Valid() && r.key in m && m[r.key] == Bucket(u * cfg.WindowMs(), r.at)
    ensures forall i :: 0 <= i < n ==> (Decisions(cfg, m, Burst(r, n))[i].Admitted? <==> i < u)
  {
    if n > 0 {
      Price(cfg, u);
      DecisionsCons(cfg, m, r, Burst(r, n - 1));
      BurstFrom(cfg, Next(cfg, m, r), r, n - 1, if u > 0 then u - 1 else 0);
    }
  }

  lemma Price(cfg: Config, u: nat)
    requires cfg.Valid()
    ensures u * cfg.WindowMs() >= cfg.WindowMs() <==> u >= 1
    ensures u >= 1 ==> u * cfg.WindowMs() - cfg.WindowMs() == (u - 1) * cfg.WindowMs()
  {
  }

  /** The bound on bursts is attained: a new client gets exactly `capacity` requests at once. */
  lemma NewClientBurst(cfg: Config, m: Buckets, r: Request, n: nat)
    requires cfg.Valid() && r.key !in m
    ensures forall i :: 0 <= i < n ==> (Decisions(cfg, m, Burst(r, n))[i].Admitted? <==> i < cfg.capacity)
  {
    if n > 0 {
      Price(cfg, cfg.capacity);
      DecisionsCons(cfg, m, r, Burst(r, n - 1));
      BurstFrom(cfg, Next(cfg, m, r), r, n - 1, cfg.capacity - 1);
    }
  }

  // ---------------------------------------------------------------- separate clients

  function Only(rs: seq<Request>, key: string): seq<Request> {
    if |rs| == 0 then [] else (if rs[0].key == key then [rs[0]] else []) + Only(rs[1..], key)
  }

  /** Of the decisions on `rs`, those on the client's own requests. */
  function OwnDecisions(rs: seq<Request>, ds: seq<Decision>, key: string): seq<Decision>
    requires |ds| == |rs|
  {
    if |rs| == 0 then [] else (if rs[0].key == key then [ds[0]] else []) + OwnDecisions(rs[1..], ds[1..], key)
  }

  predicate SameBucket(m: Buckets, m': Buckets, key: string) {
    (key in m <==> key in m') && (key in m ==> m[key] == m'[key])
  }

  lemma DecisionsCons(cfg: Config, m: Buckets, r: Request, rest: seq<Request>)
    requires cfg.Valid()
    ensures Decisions(cfg, m, [r] + rest) == [Decide(cfg, Met(cfg, m, r))] + Decisions(cfg, Next(cfg, m, r), rest)
  {
    assert ([r] + rest)[1..] == rest;
  }

  lemma OwnCons(r: Request, rest: seq<Request>, d: Decision, ds: seq<Decision>, key: string)
    requires |rest| == |ds|
    ensures OwnDecisions([r] + rest, [d] + ds, key) == (if r.key == key then [d] else []) + OwnDecisions(rest, ds, key)
    ensures Only([r] + rest, key) == (if r.key == key then [r] else []) + Only(rest, key)
  {
    assert ([r] + rest)[1..] == rest && ([d] + ds)[1..] == ds;
  }

  lemma SameNext(cfg: Config, m: Buckets, m': Buckets, r: Request, key: string)
    requires SameBucket(m, m', key)
    ensures r.key == key ==> Met(cfg, m, r) == Met(cfg, m', r) && SameBucket(Next(cfg, m, r), Next(cfg, m', r), key)
    ensures r.key != key ==> SameBucket(Next(cfg, m, r), m', key)
  {
  }

  lemma OwnHead(cfg: Config, m: Buckets, r: Request, rest: seq<Request>, key: string)
    requires cfg.Valid()
    ensures OwnDecisions([r] + rest, Decisions(cfg, m, [r] + rest), key)
      == (if r.key == key then [Decide(cfg, Met(cfg, m, r))] else [])
         + OwnDecisions(rest, Decisions(cfg, Next(cfg, m, r), rest), key)
  {
    DecisionsCons(cfg, m, r, rest);
    OwnCons(r, rest, Decide(cfg, Met(cfg, m, r)), Decisions(cfg, Next(cfg, m, r), rest), key);
  }

  lemma OnlyHead(cfg: Config, m: Buckets, r: Request, rest: seq<Request>, key: string)
    requires cfg.Valid()
    ensures Decisions(cfg, m, Only([r] + rest, key))
      == if r.key == key then [Decide(cfg, Met(cfg, m, r))] + Decisions(cfg, Next(cfg, m, r), Only(rest, key))
         else Decisions(cfg, m, Only(rest, key))
  {
    OwnCons(r, rest, Admitted, seq(|rest|, _ => Admitted), key);
    DecisionsCons(cfg, m, r, Only(rest, key));
    assert [] + Only(rest, key) == Only(rest, key);
  }

  /** What a client is told depends on its own requests alone. */
  lemma {:induction false} ClientsAreIsolated(cfg: Config, m: Buckets, m': Buckets, rs: seq<Request>, key: string)
    requires cfg.Valid() && SameBucket(m, m', key)
    ensures OwnDecisions(rs, Decisions(cfg, m, rs), key) == Decisions(cfg, m', Only(rs, key))
    decreases |rs|
  {
    if |rs| > 0 {
      var r, rest := rs[0], rs[1..];
      assert rs == [r] + rest;
      SameNext(cfg, m, m', r, key);
      ClientsAreIsolated(cfg, Next(cfg, m, r), if r.key == key then Next(cfg, m', r) else m', rest, key);
      OwnHead(cfg, m, r, rest, key);
      OnlyHead(cfg, m', r, rest, key);
    }
  }

  // ---------------------------------------------------------------- lazy refill against an eager bucket

  type Levels = map<string, int>

  /** An eager bucket per client, full from the start. */
  function LevelOf(cfg: Config, levels: Levels, key: string): int {
    if key in levels then levels[key] else cfg.Full()
  }

  /** One millisecond passes: every bucket gets its refill. */
  function TopUp(cfg: Config, levels: Levels): Levels {
    map k | k in levels :: Min(cfg.Full(), levels[k] + cfg.capacity)
  }

  function TopUps(cfg: Config, levels: Levels, ms: nat): Levels {
    if ms == 0 then levels else TopUp(cfg, TopUps(cfg, levels, ms - 1))
  }

  function EagerDecisions(cfg: Config, clock: int, levels: Levels, rs: seq<Request>): seq<Decision>
    requires cfg.Valid() && Monotone(rs) && NotBefore(rs, clock)
    decreases |rs|
  {
    if |rs| == 0 then []
    else
      var r := rs[0];
      var now := TopUps(cfg, levels, r.at - clock);
      var b := Bucket(LevelOf(cfg, now, r.key), r.at);
      [Decide(cfg, b)] + EagerDecisions(cfg, r.at, now[r.key := Charged(cfg, b).units], rs[1..])
  }

  lemma {:induction false} TopUpsLevel(cfg: Config, levels: Levels, ms: nat, key: string)
    requires cfg.Valid() && LevelOf(cfg, levels, key) <= cfg.Full()
    ensures LevelOf(cfg, TopUps(cfg, levels, ms), key) == Min(cfg.Full(), LevelOf(cfg, levels, key) + ms * cfg.capacity)
  {
    if ms > 0 {
      TopUpsLevel(cfg, levels, ms - 1, key);
      Distribute(ms - 1, 1, cfg.capacity);
    }
    assert ms * cfg.capacity >= 0;
  }

  /** Both kinds of bucket hold the same at time `clock`. */
  ghost predicate SameLevels(cfg: Config, m: Buckets, levels: Levels, clock: int) {
    forall key :: LevelOf(cfg, levels, key) == Met(cfg, m, Request(key, clock)).units
  }

  lemma SameLevelsLater(cfg: Config, m: Buckets, levels: Levels, clock: int, at: int)
    requires cfg.Valid() && Sane(cfg, m, clock) && SameLevels(cfg, m, levels, clock) && clock <= at
    ensures SameLevels(cfg, m, TopUps(cfg, levels, at - clock), at)
  {
    forall key ensures LevelOf(cfg, TopUps(cfg, levels, at - clock), key) == Met(cfg, m, Request(key, at)).units {
      MetSane(cfg, m, Request(key, clock), clock);
      TopUpsLevel(cfg, levels, at - clock, key);
      LevelGain(cfg, m, key, clock, at);
    }
  }

  lemma {:induction false} LazyRefillIsEager(cfg: Config, m: Buckets, levels: Levels, clock: int, rs: seq<Request>)
    requires cfg.Valid() && Sane(cfg, m, clock) && SameLevels(cfg, m, levels, clock)
    requires Monotone(rs) && NotBefore(rs, clock)
    ensures EagerDecisions(cfg, clock, levels, rs) == Decisions(cfg, m, rs)
    decreases |rs|
  {
    if |rs| > 0 {
      var r := rs[0];
      MetSane(cfg, m, r, clock);
      SameLevelsLater(cfg, m, levels, clock, r.at);
      var now := TopUps(cfg, levels, r.at - clock);
      var b := Bucket(LevelOf(cfg, now, r.key), r.at);
      assert r == Request(r.key, r.at) && b == Met(cfg, m, r);
      var levels' := now[r.key := Charged(cfg, b).units];
      forall key ensures LevelOf(cfg, levels', key) == Met(cfg, Next(cfg, m, r), Request(key, r.at)).units {
        assert LevelOf(cfg, now, key) == Met(cfg, m, Request(key, r.at)).units;
      }
      LazyRefillIsEager(cfg, Next(cfg, m, r), levels', r.at, rs[1..]);
    }
  }

  /** Refilling on request decides exactly as a bucket per client that is full from the start and topped up
      every millisecond, for every monotone sequence of requests. */
  lemma LimiterRefinesEagerBuckets(cfg: Config, clock: int, rs: seq<Request>)
    requires cfg.Valid() && Monotone(rs) && NotBefore(rs, clock)
    ensures Decisions(cfg, map[], rs) == EagerDecisions(cfg, clock, map[], rs)
  {
    LazyRefillIsEager(cfg, map[], map[], clock, rs);
  }

  // ---------------------------------------------------------------- Retry-After

  function After(cfg: Config, m: Buckets, rs: seq<Request>): Buckets
    decreases |rs|
  {
    if |rs| == 0 then m else After(cfg, Next(cfg, m, rs[0]), rs[1..])
  }

  lemma {:induction false} OthersKeepBucket(cfg: Config, m: Buckets, rs: seq<Request>, key: string)
    requires forall i :: 0 <= i < |rs| ==> rs[i].key != key
    ensures SameBucket(m, After(cfg, m, rs), key)
    decreases |rs|
  {
    if |rs| > 0 {
      OthersKeepBucket(cfg, Next(cfg, m, rs[0]), rs[1..], key);
    }
  }

  lemma CeilDivExact(a: int, b: int)
    requires a > 0 && b > 0
    ensures CeilDiv(a, b) >= 1 && (CeilDiv(a, b) - 1) * b < a <= CeilDiv(a, b) * b
  {
    var q := (a + b - 1) / b;
    assert q * b <= a + b - 1 < q * b + b;
    Distribute(q, -1, b);
  }

  lemma RetryBucket(cfg: Config, b: Bucket, at: int)
    requires cfg.Valid() && 0 <= b.units <= cfg.Full() && b.lastRefillMs <= at && Decide(cfg, b).Rejected?
    ensures var seconds := Decide(cfg, b).retryAfterSeconds;
      && (at >= b.lastRefillMs + 1000 * seconds ==> Refilled(cfg, b, at).units >= cfg.WindowMs())
      && (at <= b.lastRefillMs + 1000 * (seconds - 1) ==> Refilled(cfg, b, at).units < cfg.WindowMs())
  {
    CeilDivExact(cfg.WindowMs() - b.units, cfg.capacity * 1000);
    RefillBounds(cfg, b.units, at - b.lastRefillMs, Decide(cfg, b).retryAfterSeconds);
    MulLeq(1, cfg.capacity, cfg.WindowMs());
  }

  /** Whatever other clients do meanwhile, a rejected client that stays silent for Retry-After seconds is
      admitted by its next request, and while it is at least a second early it is rejected. */
  lemma RetryAfterIsExact(cfg: Config, m: Buckets, r: Request, others: seq<Request>, at: int)
    requires cfg.Valid() && Sane(cfg, m, r.at) && r.at <= at
    requires Decide(cfg, Met(cfg, m, r)).Rejected?
    requires forall i :: 0 <= i < |others| ==> others[i].key != r.key
    ensures var seconds := Decide(cfg, Met(cfg, m, r)).retryAfterSeconds;
      var m' := After(cfg, Next(cfg, m, r), others);
      && (at >= r.at + 1000 * seconds ==> Decide(cfg, Met(cfg, m', Request(r.key, at))).Admitted?)
      && (at <= r.at + 1000 * (seconds - 1) ==> Decide(cfg, Met(cfg, m', Request(r.key, at))).Rejected?)
  {
    var b := Met(cfg, m, r);
    MetSane(cfg, m, r, r.at);
    OthersKeepBucket(cfg, Next(cfg, m, r), others, r.key);
    assert Met(cfg, After(cfg, Next(cfg, m, r), others), Request(r.key, at)) == Refilled(cfg, b, at);
    RetryBucket(cfg, b, at);
  }

  /** What the limiter holds after any requests with a monotone clock. */
  lemma {:induction false} ReachableSane(cfg: Config, m: Buckets, rs: seq<Request>, start: int, now: int)
    requires cfg.Valid() && Sane(cfg, m, start) && start <= now && Monotone(rs) && Within(rs, start, now)
    ensures Sane(cfg, After(cfg, m, rs), now)
    decreases |rs|
  {
    if |rs| > 0 {
      MetSane(cfg, m, rs[0], start);
      ReachableSane(cfg, Next(cfg, m, rs[0]), rs[1..], rs[0].at, now);
    }
  }

  /** So Retry-After is exact for every request of every run with a monotone clock. */
  lemma RetryAfterInEveryRun(cfg: Config, past: seq<Request>, r: Request, others: seq<Request>, at: int)
    requires cfg.Valid() && Monotone(past + [r]) && r.at <= at
    requires Decide(cfg, Met(cfg, After(cfg, map[], past), r)).Rejected?
    requires forall i :: 0 <= i < |others| ==> others[i].key != r.key
    ensures var m := After(cfg, map[], past);
      var seconds := Decide(cfg, Met(cfg, m, r)).retryAfterSeconds;
      var m' := After(cfg, Next(cfg, m, r), others);
      && (at >= r.at + 1000 * seconds ==> Decide(cfg, Met(cfg, m', Request(r.key, at))).Admitted?)
      && (at <= r.at + 1000 * (seconds - 1) ==> Decide(cfg, Met(cfg, m', Request(r.key, at))).Rejected?)
  {
    var start := if |past| == 0 then r.at else past[0].at;
    assert (past + [r])[|past|] == r && forall i :: 0 <= i < |past| ==> (past + [r])[i] == past[i];
    ReachableSane(cfg, map[], past, start, r.at);
    RetryAfterIsExact(cfg, After(cfg, map[], past), r, others, at);
  }

  lemma RefillBounds(cfg: Config, units: int, ms: int, seconds: int)
    requires cfg.Valid() && ms >= 0 && units < cfg.WindowMs()
    requires (seconds - 1) * (cfg.capacity * 1000) < cfg.WindowMs() - units <= seconds * (cfg.capacity * 1000)
    ensures ms >= 1000 * seconds ==> units + ms * cfg.capacity >= cfg.WindowMs()
    ensures ms <= 1000 * (seconds - 1) ==> units + ms * cfg.capacity < cfg.WindowMs()
  {
    assert seconds * (cfg.capacity * 1000) == (1000 * seconds) * cfg.capacity;
    assert (seconds - 1) * (cfg.capacity * 1000) == (1000 * (seconds - 1)) * cfg.capacity;
    if ms >= 1000 * seconds {
      MulLeq(1000 * seconds, ms, cfg.capacity);
    }
    if ms <= 1000 * (seconds - 1) {
      MulLeq(ms, 1000 * (seconds - 1), cfg.capacity);
    }
  }

  lemma MulLeq(a: int, b: int, c: int)
    requires a <= b && c >= 0
    ensures a * c <= b * c
  {
  }
}
