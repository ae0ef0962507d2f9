/** Vendor-neutral errors of the AI layer. */
module AiErrors {
  datatype AiError =
    | Disabled
    | Timeout
    | RateLimited
    | BudgetExhausted
    | CircuitOpen
    | ProviderRejected(message: string)
    | InvalidOutput(message: string)
    | Transport(message: string)
    | Config(message: string)
}

/**
  Per-host token bucket, concurrency cap and 429 circuit breaker. Instants and durations
  are seconds as reals; every clock read of the code is an explicit argument.
 */
module HostLimiting {
  import opened Outcomes
  import opened MachineInts
  import opened Reals
  import opened AiErrors
  import Text

  datatype HostConfig = HostConfig(
    maxTokens: real,
    refillPerSec: real,
    maxConcurrency: U32,
    circuitOpen: real,
    consecutive429Threshold: U32)

  datatype Host = Host(
    tokens: real,
    inFlight: U32,
    lastRefill: real,
    consecutive429: U32,
    circuitOpenUntil: Option<real>)

  /** The clock reads of one acquire, in program order. */
  datatype ClockReads = ClockReads(created: real, checked: real, measured: real, stamped: real)

  datatype Release =
    | Success
    | TooMany(retryAfter: Option<real>)
    | SoftError

  function NewHost(cfg: HostConfig, now: real): Host {
    Host(cfg.maxTokens, 0, now, 0, None)
  }

  function ToppedUp(cfg: HostConfig, tokens: real, elapsed: real): real {
    MinReal(tokens + elapsed * cfg.refillPerSec, cfg.maxTokens)
  }

  function Refilled(cfg: HostConfig, h: Host, measured: real, stamped: real): Host {
    if measured - h.lastRefill <= 0.0 then h
    else h.(
      tokens := ToppedUp(cfg, h.tokens, measured - h.lastRefill),
      lastRefill := stamped)
  }

  function Acquired(cfg: HostConfig, h: Host, t: ClockReads): (Host, Result<(), AiError>) {
    if h.circuitOpenUntil.Some? && t.checked < h.circuitOpenUntil.value then
      (h, Err(CircuitOpen))
    else
      var r := Refilled(cfg, h.(circuitOpenUntil := None), t.measured, t.stamped);
      if r.inFlight >= cfg.maxConcurrency || r.tokens < 1.0 then (r, Err(RateLimited))
      else (r.(tokens := r.tokens - 1.0, inFlight := SaturatingAddU32(r.inFlight, 1)), Ok(()))
  }

  function Released(cfg: HostConfig, h: Host, how: Release, now: real): Host {
    var freed := h.(inFlight := SaturatingSub(h.inFlight, 1));
    match how
    case Success => freed.(consecutive429 := 0)
    case SoftError => freed
    case TooMany(retryAfter) =>
      var counted := freed.(consecutive429 := SaturatingAddU32(h.consecutive429, 1));
      if counted.consecutive429 >= cfg.consecutive429Threshold then
        counted.(circuitOpenUntil := Some(now + retryAfter.GetOr(cfg.circuitOpen)))
      else counted
  }

  class HostState {
    const config: HostConfig
    var tokens: real
    var inFlight: U32
    var lastRefill: real
    var consecutive429: U32
    var circuitOpenUntil: Option<real>

    ghost function View(): Host
      reads this
    {
      Host(tokens, inFlight, lastRefill, consecutive429, circuitOpenUntil)
    }

    constructor (config: HostConfig, now: real)
      ensures this.config == config
      ensures View() == NewHost(config, now)
    {
      this.config := config;
      tokens, inFlight, lastRefill, consecutive429, circuitOpenUntil := config.maxTokens, 0, now, 0, None;
    }

    method Refill(measured: real, stamped: real)
      modifies this
      ensures View() == Refilled(config, old(View()), measured, stamped)
    {
      var elapsed := measured - lastRefill;
      if elapsed <= 0.0 {
        return;
      }
      tokens := MinReal(tokens + elapsed * config.refillPerSec, config.maxTokens);
      lastRefill := stamped;
    }

    method TryAcquire(t: ClockReads) returns (r: Result<(), AiError>)
      modifies this
      ensures (View(), r) == Acquired(config, old(View()), t)
    {
      if circuitOpenUntil.Some? {
        if t.checked < circuitOpenUntil.value {
          return Err(CircuitOpen);
        }
        circuitOpenUntil := None;
      }
      Refill(t.measured, t.stamped);
      if inFlight >= config.maxConcurrency {
        return Err(RateLimited);
      }
      if tokens < 1.0 {
        return Err(RateLimited);
      }
      tokens := tokens - 1.0;
      inFlight := SaturatingAddU32(inFlight, 1);
      r := Ok(());
    }

    method ReleaseOk()
      modifies this
      ensures forall now :: View() == Released(config, old(View()), Success, now)
    {
      inFlight := SaturatingSub(inFlight, 1);
      consecutive429 := 0;
    }

    method Release429(retryAfter: Option<real>, now: real)
      modifies this
      ensures View() == Released(config, old(View()), TooMany(retryAfter), now)
    {
      inFlight := SaturatingSub(inFlight, 1);
      consecutive429 := SaturatingAddU32(consecutive429, 1);
      if consecutive429 >= config.consecutive429Threshold {
        var openFor := retryAfter.GetOr(config.circuitOpen);
        circuitOpenUntil := Some(now + openFor);
      }
    }

    method ReleaseError()
      modifies this
      ensures forall now :: View() == Released(config, old(View()), SoftError, now)
    {
      inFlight := SaturatingSub(inFlight, 1);
    }
  }

  // ----- All hosts -----

  type Hosts = map<string, Host>

  function Normalize(host: string): string {
    Text.Lower(Text.Trim(host))
  }

  function AcquireAt(cfg: HostConfig, hosts: Hosts, rawHost: string, t: ClockReads): (Hosts, Result<string, AiError>) {
    var host := Normalize(rawHost);
    if host == "" then (hosts, Err(Config("host is required for rate limiting")))
    else
      var h := if host in hosts then hosts[host] else NewHost(cfg, t.created);
      var (after, r) := Acquired(cfg, h, t);
      (hosts[host := after], if r.Ok? then Ok(host) else Err(r.error))
  }

  function ReleaseAt(cfg: HostConfig, hosts: Hosts, host: string, how: Release, now: real): Hosts {
    if host in hosts then hosts[host := Released(cfg, hosts[host], how, now)] else hosts
  }

  class HostLimiter {
    const defaultConfig: HostConfig
    var hosts: map<string, HostState>

    /** Every host has a state object of its own. */
    ghost predicate Valid()
      reads this, hosts.Values
    {
      && (forall h <- hosts :: hosts[h].config == defaultConfig)
      && (forall g, h :: g in hosts && h in hosts && g != h ==> hosts[g] != hosts[h])
    }

    ghost function View(): Hosts
      reads this, hosts.Values
    {
      map h | h in hosts :: hosts[h].View()
    }

    constructor (defaultConfig: HostConfig)
      ensures Valid() && View() == map[] && this.defaultConfig == defaultConfig
    {
      this.defaultConfig := defaultConfig;
      hosts := map[];
    }

    method TryAcquire(rawHost: string, t: ClockReads) returns (r: Result<HostPermit, AiError>)
      requires Valid()
      modifies this, hosts.Values
      ensures Valid() && fresh(hosts.Values - old(hosts.Values))
      ensures var (after, answer) := AcquireAt(defaultConfig, old(View()), rawHost, t);
              && View() == after
              && match r
                 case Ok(permit) => fresh(permit) && permit.limiter == this && !permit.released
                   && answer == Ok(permit.host)
                 case Err(error) => answer == Err(error)
    {
      var host := Normalize(rawHost);
      if host == "" {
        return Err(Config("host is required for rate limiting"));
      }
      var outcome := AcquireNamed(host, t);
      if outcome.Err? {
        return Err(outcome.error);
      }
      var permit := new HostPermit(this, host);
      r := Ok(permit);
    }

    /** entry(host).or_insert_with(new state) */
    method Entry(host: string, now: real)
      requires Valid()
      modifies this
      ensures Valid() && fresh(hosts.Values - old(hosts.Values)) && host in hosts
      ensures hosts[host] in old(hosts.Values) || fresh(hosts[host])
      ensures View() == if host in old(hosts) then old(View()) else old(View())[host := NewHost(defaultConfig, now)]
    {
      if host !in hosts {
        var state := new HostState(defaultConfig, now);
        hosts := hosts[host := state];
      }
    }

    method AcquireNamed(host: string, t: ClockReads) returns (r: Result<(), AiError>)
      requires Valid()
      modifies this, hosts.Values
      ensures Valid() && fresh(hosts.Values - old(hosts.Values))
      ensures var h := if host in old(View()) then old(View())[host] else NewHost(defaultConfig, t.created);
              var (after, answer) := Acquired(defaultConfig, h, t);
              View() == old(View())[host := after] && r == answer
    {
      Entry(host, t.created);
      ghost var entered := View();
      r := AcquireState(host, t);
      assert View() == entered[host := Acquired(defaultConfig, entered[host], t).0];
    }

    method AcquireState(host: string, t: ClockReads) returns (r: Result<(), AiError>)
      requires Valid() && host in hosts
      modifies hosts[host]
      ensures Valid()
      ensures View() == old(View())[host := Acquired(defaultConfig, old(View())[host], t).0]
      ensures r == Acquired(defaultConfig, old(View())[host], t).1
    {
      r := hosts[host].TryAcquire(t);
    }

    method Release(host: string, how: Release, now: real)
      requires Valid()
      modifies hosts.Values
      ensures Valid() && hosts == old(hosts)
      ensures View() == ReleaseAt(defaultConfig, old(View()), host, how, now)
    {
      if host in hosts {
        match how
        case Success => hosts[host].ReleaseOk();
        case TooMany(retryAfter) => hosts[host].Release429(retryAfter, now);
        case SoftError => hosts[host].ReleaseError();
      }
    }
  }

  /** A permit is given back once: explicitly, or when it is dropped. */
  class HostPermit {
    const limiter: HostLimiter
    const host: string
    var released: bool

    constructor (limiter: HostLimiter, host: string)
      ensures this.limiter == limiter && this.host == host && !released
    {
      this.limiter := limiter;
      this.host := host;
      released := false;
    }

    /** success, rate_limited and failed consume the permit, so its drop follows at once. */
    method Finish(how: Release, now: real)
      requires limiter.Valid() && !released
      modifies this, limiter.hosts.Values
      ensures limiter.Valid() && limiter.hosts == old(limiter.hosts) && released
      ensures limiter.View() == ReleaseAt(limiter.defaultConfig, old(limiter.View()), host, how, now)
    {
      limiter.Release(host, how, now);
      released := true;
      Drop(now);
    }

    method Drop(now: real)
      requires limiter.Valid()
      modifies limiter.hosts.Values
      ensures limiter.Valid() && limiter.hosts == old(limiter.hosts) && released == old(released)
      ensures limiter.View() == if released then old(limiter.View())
                                else ReleaseAt(limiter.defaultConfig, old(limiter.View()), host, SoftError, now)
    {
      if !released {
        limiter.Release(host, SoftError, now);
      }
    }
  }
}
