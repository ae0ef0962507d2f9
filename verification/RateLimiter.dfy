/**
  The fixed-window request limiter in front of the API. One request is charged to several
  counters at once (device or session, address, everybody). Expired counters stay in the
  table until a purge that runs only on some requests.
 */
module RateLimiting {
  import opened Outcomes
  import opened MachineInts
  import Text

  const NANOS_PER_SECOND := 1_000_000_000
  const WINDOW := 60 * NANOS_PER_SECOND
  const MAX_IDENTITIES := 100_000
  const PURGE_PERIOD := 1_024

  datatype Config = Config(
    enabled: bool,
    readPerMinute: U32,
    searchPerMinute: U32,
    sessionPerMinute: U32,
    feedbackPerMinute: U32,
    globalPerMinute: U32,
    trustProxyHeaders: bool)

  datatype Bucket = Read | Search | Session | Feedback | Global

  datatype CounterKey = CounterKey(bucket: Bucket, identity: string)

  /** Instants are nanoseconds of the monotonic clock. */
  datatype Counter = Counter(started: nat, count: U32)

  type Table = map<CounterKey, Counter>

  /** What the limiter reads from a request; the header values arrive hashed. */
  datatype Request = Request(
    post: bool,
    path: string,
    device: Option<string>,
    bearer: Option<string>,
    proxyIp: Option<string>,
    peerIp: Option<string>)

  datatype Allowance = Allowance(limit: U32, remaining: U32)
  datatype Limited = Limited(limit: U32, retryAfterSeconds: nat)

  /** Allowed, or the reason why not; ToResult is what the caller sees. */
  datatype Verdict =
    | Unlimited
    | Allowed(allowance: Allowance)
    | TableFull(limited: Limited)
    | OverLimit(limited: Limited)
  {
    function ToResult(): Result<Option<Allowance>, Limited> {
      match this
      case Unlimited => Ok(None)
      case Allowed(a) => Ok(Some(a))
      case TableFull(l) => Err(l)
      case OverLimit(l) => Err(l)
    }
  }

  datatype Charge = Charge(key: CounterKey, limit: U32)
  datatype LimiterState = LimiterState(counters: Table, requests: U64)

  // ----- Which counters a request touches -----

  function Classify(cfg: Config, req: Request): Option<(Bucket, U32)> {
    if Text.StartsWith(req.path, "/v1/session/") || Text.StartsWith(req.path, "/v1/auth/") then
      Some((Session, cfg.sessionPerMinute))
    else if req.path == "/v1/search" then
      Some((Search, cfg.searchPerMinute))
    else if req.post && Text.StartsWith(req.path, "/v1/feedback") then
      Some((Feedback, cfg.feedbackPerMinute))
    else if req.post && Text.StartsWith(req.path, "/v1/games/") && Text.EndsWith(req.path, "/play-intent") then
      Some((Feedback, cfg.feedbackPerMinute))
    else if Text.StartsWith(req.path, "/v1/") || req.path == "/openapi.json" then
      Some((Read, cfg.readPerMinute))
    else
      None
  }

  function ClientIp(cfg: Config, req: Request): Option<string> {
    if cfg.trustProxyHeaders && req.proxyIp.Some? then req.proxyIp else req.peerIp
  }

  function Identities(cfg: Config, req: Request): (ids: seq<string>)
    ensures 1 <= |ids| <= 2
  {
    var who :=
      if req.device.Some? then ["device:" + req.device.value]
      else if req.bearer.Some? then ["session:" + req.bearer.value]
      else [];
    var from := if ClientIp(cfg, req).Some? then ["ip:" + ClientIp(cfg, req).value] else [];
    if who + from == [] then ["unidentified"] else who + from
  }

  const GLOBAL_KEY := CounterKey(Global, "all")

  function Charges(cfg: Config, req: Request, bucket: Bucket, limit: U32): seq<Charge> {
    var ids := Identities(cfg, req);
    seq(|ids|, i requires 0 <= i < |ids| => Charge(CounterKey(bucket, ids[i]), limit))
      + [Charge(GLOBAL_KEY, cfg.globalPerMinute)]
  }

  function LimitOf(cfg: Config, bucket: Bucket): U32 {
    match bucket
    case Read => cfg.readPerMinute
    case Search => cfg.searchPerMinute
    case Session => cfg.sessionPerMinute
    case Feedback => cfg.feedbackPerMinute
    case Global => cfg.globalPerMinute
  }

  ghost predicate DistinctKeys(charges: seq<Charge>) {
    forall i, j :: 0 <= i < j < |charges| ==> charges[i].key != charges[j].key
  }

  /** A request never charges one counter twice, and always by that counter's own limit. */
  lemma ChargesAreDistinct(cfg: Config, req: Request)
    requires Classify(cfg, req).Some?
    ensures var (bucket, limit) := Classify(cfg, req).value;
            && DistinctKeys(Charges(cfg, req, bucket, limit))
            && forall c <- Charges(cfg, req, bucket, limit) :: c.limit == LimitOf(cfg, c.key.bucket)
  {
    var ids := Identities(cfg, req);
    if |ids| == 2 {
      assert ids[0][0] != ids[1][0];
    }
  }

  // ----- The limiter as written: lazy expiry -----

  /** Instant::duration_since saturates at zero. */
  function Elapsed(now: nat, started: nat): nat {
    SaturatingSub(now, started)
  }

  predicate Fresh(counter: Counter, now: nat) {
    Elapsed(now, counter.started) < WINDOW
  }

  /** The counters whose window is still open at `now`. */
  function Live(counters: Table, now: nat): Table {
    map k | k in counters && Fresh(counters[k], now) :: counters[k]
  }

  function Purged(s: LimiterState, now: nat): LimiterState {
    if |s.counters| >= MAX_IDENTITIES then
      s.(counters := Live(s.counters, now))
    else
      LimiterState(
        if s.requests % PURGE_PERIOD == 0 then Live(s.counters, now) else s.counters,
        (s.requests + 1) % U64_RANGE)
  }

  predicate Blocks(counters: Table, c: Charge, now: nat) {
    c.key in counters && Fresh(counters[c.key], now) && counters[c.key].count >= c.limit
  }

  function RetryAfter(started: nat, now: nat): nat {
    Max(SaturatingSub(WINDOW, Elapsed(now, started)) / NANOS_PER_SECOND, 1)
  }

  /** The first charge whose counter is used up. */
  function FirstBlocked(counters: Table, charges: seq<Charge>, now: nat): Option<Limited> {
    if charges == [] then None
    else if Blocks(counters, charges[0], now) then
      Some(Limited(charges[0].limit, RetryAfter(counters[charges[0].key].started, now)))
    else FirstBlocked(counters, charges[1..], now)
  }

  function ChargeOne(counters: Table, key: CounterKey, now: nat): Table {
    var base :=
      if key in counters && Fresh(counters[key], now) then counters[key] else Counter(now, 0);
    counters[key := base.(count := SaturatingAddU32(base.count, 1))]
  }

  function ChargeAll(counters: Table, charges: seq<Charge>, remaining: U32, now: nat): (Table, U32)
    decreases |charges|
  {
    if charges == [] then (counters, remaining)
    else
      var next := ChargeOne(counters, charges[0].key, now);
      var left := SaturatingSub(charges[0].limit, next[charges[0].key].count);
      ChargeAll(next, charges[1..], if left < remaining then left else remaining, now)
  }

  /** After the purge: capacity, then all tests, then all charges. */
  function Settle(p: LimiterState, charges: seq<Charge>, limit: U32, now: nat): (LimiterState, Verdict) {
    if |p.counters| >= MAX_IDENTITIES then (p, TableFull(Limited(limit, WINDOW / NANOS_PER_SECOND)))
    else
      var blocked := FirstBlocked(p.counters, charges, now);
      if blocked.Some? then (p, OverLimit(blocked.value))
      else
        var (after, remaining) := ChargeAll(p.counters, charges, limit, now);
        (p.(counters := after), Allowed(Allowance(limit, remaining)))
  }

  function Step(cfg: Config, s: LimiterState, req: Request, now: nat): (LimiterState, Verdict) {
    if !cfg.enabled || Classify(cfg, req).None? then (s, Unlimited)
    else
      var (bucket, limit) := Classify(cfg, req).value;
      Settle(Purged(s, now), Charges(cfg, req, bucket, limit), limit, now)
  }

  class RateLimiter {
    const config: Config
    var counters: Table
    var requests: U64

    ghost function View(): LimiterState
      reads this
    {
      LimiterState(counters, requests)
    }

    constructor (config: Config)
      ensures this.config == config
      ensures View() == LimiterState(map[], 0)
    {
      this.config := config;
      counters := map[];
      requests := 0;
    }

    method Check(request: Request, now: nat) returns (r: Result<Option<Allowance>, Limited>)
      modifies this
      ensures View() == Step(config, old(View()), request, now).0
      ensures r == Step(config, old(View()), request, now).1.ToResult()
    {
      if !config.enabled {
        return Ok(None);
      }
      var tracked := Classify(config, request);
      if tracked.None? {
        return Ok(None);
      }
      var (bucket, limit) := tracked.value;
      var keys := Charges(config, request, bucket, limit);

      Purge(now);
      if |counters| >= MAX_IDENTITIES {
        return Err(Limited(limit, WINDOW / NANOS_PER_SECOND));
      }
      var blocked := TestKeys(keys, now);
      if blocked.Some? {
        return Err(blocked.value);
      }
      var remaining := ChargeKeys(keys, limit, now);
      r := Ok(Some(Allowance(limit, remaining)));
    }

    method Purge(now: nat)
      modifies this
      ensures View() == Purged(old(View()), now)
    {
      var purge := |counters| >= MAX_IDENTITIES;
      if !purge {
        purge := requests % PURGE_PERIOD == 0;
        requests := (requests + 1) % U64_RANGE;
      }
      if purge {
        counters := map k | k in counters && Elapsed(now, counters[k].started) < WINDOW :: counters[k];
      }
    }

    method TestKeys(keys: seq<Charge>, now: nat) returns (blocked: Option<Limited>)
      ensures blocked == FirstBlocked(counters, keys, now)
    {
      for i := 0 to |keys|
        invariant FirstBlocked(counters, keys, now) == FirstBlocked(counters, keys[i..], now)
      {
        var c := keys[i];
        if c.key in counters && Elapsed(now, counters[c.key].started) < WINDOW && counters[c.key].count >= c.limit {
          return Some(Limited(c.limit, RetryAfter(counters[c.key].started, now)));
        }
      }
      blocked := None;
    }

    method ChargeKeys(keys: seq<Charge>, limit: U32, now: nat) returns (remaining: U32)
      modifies this`counters
      ensures (counters, remaining) == ChargeAll(old(counters), keys, limit, now)
    {
      remaining := limit;
      for i := 0 to |keys|
        invariant ChargeAll(old(counters), keys, limit, now) == ChargeAll(counters, keys[i..], remaining, now)
      {
        var key := keys[i].key;
        ghost var prior := counters;
        if key !in counters {
          counters := counters[key := Counter(now, 0)];
        }
        if Elapsed(now, counters[key].started) >= WINDOW {
          counters := counters[key := Counter(now, 0)];
        }
        counters := counters[key := counters[key].(count := SaturatingAddU32(counters[key].count, 1))];
        assert counters == ChargeOne(prior, key, now);
        assert keys[i..][1..] == keys[i + 1..];
        var left := SaturatingSub(keys[i].limit, counters[key].count);
        remaining := if left < remaining then left else remaining;
      }
    }
  }
}
