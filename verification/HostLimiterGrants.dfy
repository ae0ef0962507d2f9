/** When the host limiter lets a request through, and what that leaves behind. */
module HostLimitingGrants {
  import opened Outcomes
  import opened MachineInts
  import opened Reals
  import opened AiErrors
  import opened HostLimiting
  import opened HostLimitingLaws
  import Text

  // ----- One request -----

  /** The reopening instant of a host's breaker lies ahead. */
  ghost predicate BreakerOpen(sys: System, host: string, now: real) {
    host in sys.hosts && sys.hosts[host].circuitOpenUntil.Some? && now < sys.hosts[host].circuitOpenUntil.value
  }

  /** There is a permit to spare, and a whole token: what was left plus what has been earned, up to the cap. */
  ghost predicate HasRoom(cfg: HostConfig, sys: System, host: string, now: real) {
    |Held(sys.live, host)| < cfg.maxConcurrency && Budget(cfg, sys, host, now) >= 1.0
  }

  /** The answer to a request, by what is known about its host. */
  ghost predicate AnsweredFairly(cfg: HostConfig, sys: System, host: string, t: ClockReads,
                                 answer: Result<string, AiError>) {
    if host == "" then answer == Err(Config("host is required for rate limiting"))
    else if BreakerOpen(sys, host, t.checked) then answer == Err(CircuitOpen)
    else if HasRoom(cfg, sys, host, t.measured) then answer == Ok(host)
    else answer == Err(RateLimited)
  }

  /** The balance after a request: what it was worth then, less the token, from then on. */
  ghost predicate Debited(cfg: HostConfig, sys: System, next: System, host: string, t: ClockReads, granted: bool) {
    && host in next.hosts
    && next.hosts[host].tokens == Budget(cfg, sys, host, t.measured) - (if granted then 1.0 else 0.0)
    && next.hosts[host].circuitOpenUntil == None
    && next.hosts[host].lastRefill ==
         if host !in sys.hosts then (if t.measured > t.created then t.stamped else t.created)
         else if t.measured > sys.hosts[host].lastRefill then t.stamped
         else sys.hosts[host].lastRefill
  }

  lemma RefillIsBalance(cfg: HostConfig, h: Host, measured: real, stamped: real)
    requires h.tokens <= cfg.maxTokens && h.lastRefill <= measured
    ensures var r := Refilled(cfg, h, measured, stamped);
            && r.tokens == Potential(cfg, h, measured)
            && r.lastRefill == (if measured > h.lastRefill then stamped else h.lastRefill)
            && r.inFlight == h.inFlight && r.circuitOpenUntil == h.circuitOpenUntil
  {
    if measured == h.lastRefill {
      NoGain(cfg, h, measured);
    }
  }

  lemma NewHostIsFull(cfg: HostConfig, now: real, later: real)
    requires Sensible(cfg) && now <= later
    ensures Potential(cfg, NewHost(cfg, now), later) == cfg.maxTokens
  {
    EarnedAdds(cfg, now, now, later);
  }

  /** A request before the reopening instant is refused by the breaker, and one after it by permits or tokens only. */
  lemma AcquireIsFair(cfg: HostConfig, sys: System, raw: string, serial: nat, t: ClockReads)
    requires Sensible(cfg) && Sound(cfg, sys) && StampedBy(sys, t.created) && Ordered(t)
    ensures var e, host := Acquire(raw, serial, t), Normalize(raw);
            var next := Step(cfg, sys, e);
            && AnsweredFairly(cfg, sys, host, t, Answer(cfg, sys, e).value)
            && (host == "" ==> next == sys)
            && (host != "" && BreakerOpen(sys, host, t.checked) ==> next == sys)
            && (host != "" && !BreakerOpen(sys, host, t.checked) ==>
                  Debited(cfg, sys, next, host, t, Granted(cfg, sys, e)))
  {
    var host := Normalize(raw);
    if host != "" {
      var h := if host in sys.hosts then sys.hosts[host] else NewHost(cfg, t.created);
      RefillIsBalance(cfg, h.(circuitOpenUntil := None), t.measured, t.stamped);
      if host !in sys.hosts {
        assert Held(sys.live, host) == {};
        NewHostIsFull(cfg, t.created, t.measured);
      }
    }
  }

  // ----- Any run -----

  /**
    The grant law. After any run of any hosts, a request is let through exactly when its host's
    breaker is not open, fewer permits are out than the cap, and the host's balance is at least
    one token. Otherwise the error says which of these it was.
   */
  lemma GrantedIff(cfg: HostConfig, run: seq<Event>, raw: string, serial: nat, t: ClockReads, start: real)
    requires Sensible(cfg) && OwnedRun(cfg, IDLE, run) && Clocked(run, start, t.created) && Ordered(t)
    ensures var sys, e, host := After(cfg, IDLE, run), Acquire(raw, serial, t), Normalize(raw);
            && AnsweredFairly(cfg, sys, host, t, Answer(cfg, sys, e).value)
            && (Granted(cfg, sys, e) <==>
                  host != "" && !BreakerOpen(sys, host, t.checked) && HasRoom(cfg, sys, host, t.measured))
  {
    var sys := After(cfg, IDLE, run);
    assert Sound(cfg, IDLE);
    RunIsSound(cfg, IDLE, run);
    RunStamps(cfg, IDLE, run, start, t.created);
    AcquireIsFair(cfg, sys, raw, serial, t);
  }

  lemma EnoughEarned(cfg: HostConfig, h: Host, now: real)
    requires h.tokens >= 0.0 && cfg.maxTokens >= 1.0 && Earned(cfg, h.lastRefill, now) >= 1.0
    ensures Potential(cfg, h, now) >= 1.0
  {
  }

  /**
    Waiting helps. However a host was used, once its breaker is not open and a permit is free, a
    request is let through as soon as the time since its last refill has earned one token; and
    a host that nobody has asked for yet starts with a full bucket.
   */
  lemma WaitingIsRewarded(cfg: HostConfig, run: seq<Event>, raw: string, serial: nat, t: ClockReads, start: real)
    requires Sensible(cfg) && OwnedRun(cfg, IDLE, run) && Clocked(run, start, t.created) && Ordered(t)
    requires cfg.maxTokens >= 1.0 && Normalize(raw) != ""
    requires var sys, host := After(cfg, IDLE, run), Normalize(raw);
             && !BreakerOpen(sys, host, t.checked)
             && |Held(sys.live, host)| < cfg.maxConcurrency
             && (host in sys.hosts ==> Earned(cfg, sys.hosts[host].lastRefill, t.measured) >= 1.0)
    ensures Answer(cfg, After(cfg, IDLE, run), Acquire(raw, serial, t)) == Some(Ok(Normalize(raw)))
  {
    var sys, host := After(cfg, IDLE, run), Normalize(raw);
    assert Sound(cfg, IDLE);
    RunIsSound(cfg, IDLE, run);
    assert Budget(cfg, sys, host, t.measured) >= 1.0 by {
      if host in sys.hosts {
        EnoughEarned(cfg, sys.hosts[host], t.measured);
      }
    }
    GrantedIff(cfg, run, raw, serial, t, start);
  }

  /** A host's own name is its normal form, so hosts of different names never share a state. */
  lemma NamesStayApart(a: string, b: string)
    requires Text.Trimmed(a) && Text.Lower(a) == a && Text.Trimmed(b) && Text.Lower(b) == b
    ensures Normalize(a) == a
    ensures Normalize(a) == Normalize(b) <==> a == b
  {
    Text.TrimFixes(a);
    Text.TrimFixes(b);
  }
}
