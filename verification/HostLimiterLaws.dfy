/** What the host limiter promises over whole runs of many hosts and many permits. */
module HostLimitingLaws {
  import opened Outcomes
  import opened MachineInts
  import opened Reals
  import opened AiErrors
  import opened HostLimiting
  import Text

  /** A permit held by some caller. */
  datatype Permit = Permit(host: string, serial: nat)

  /** A drop without an explicit release is Finish(permit, SoftError, _). */
  datatype Event =
    | Acquire(rawHost: string, serial: nat, clock: ClockReads)
    | Finish(permit: Permit, how: Release, now: real)

  datatype System = System(hosts: Hosts, live: set<Permit>)

  const IDLE := System(map[], {})

  ghost predicate Touches(e: Event, host: string) {
    match e
    case Acquire(raw, _, _) => Normalize(raw) == host
    case Finish(permit, _, _) => permit.host == host
  }

  ghost function Answer(cfg: HostConfig, sys: System, e: Event): Option<Result<string, AiError>> {
    if e.Acquire? then Some(AcquireAt(cfg, sys.hosts, e.rawHost, e.clock).1) else None
  }

  ghost predicate Granted(cfg: HostConfig, sys: System, e: Event) {
    Answer(cfg, sys, e).Some? && Answer(cfg, sys, e).value.Ok?
  }

  ghost function Step(cfg: HostConfig, sys: System, e: Event): System {
    match e
    case Acquire(raw, serial, clock) =>
      System(AcquireAt(cfg, sys.hosts, raw, clock).0,
             if Granted(cfg, sys, e) then sys.live + {Permit(Normalize(raw), serial)} else sys.live)
    case Finish(permit, how, now) =>
      System(ReleaseAt(cfg, sys.hosts, permit.host, how, now), sys.live - {permit})
  }

  ghost function After(cfg: HostConfig, sys: System, run: seq<Event>): System
    decreases |run|
  {
    if run == [] then sys else After(cfg, Step(cfg, sys, run[0]), run[1..])
  }

  /** Permits are created fresh, and given back once by whoever holds them. */
  ghost predicate Owned(sys: System, e: Event) {
    match e
    case Acquire(raw, serial, _) => Permit(Normalize(raw), serial) !in sys.live
    case Finish(permit, _, _) => permit in sys.live
  }

  ghost predicate OwnedRun(cfg: HostConfig, sys: System, run: seq<Event>)
    decreases |run|
  {
    run == [] || (Owned(sys, run[0]) && OwnedRun(cfg, Step(cfg, sys, run[0]), run[1..]))
  }

  // ----- Accounting: tokens and permits -----

  ghost predicate Sensible(cfg: HostConfig) {
    cfg.maxTokens >= 0.0 && cfg.refillPerSec >= 0.0
  }

  ghost function Held(live: set<Permit>, host: string): set<Permit> {
    set p <- live | p.host == host
  }

  /** Tokens stay within the bucket, and in_flight is exactly the number of live permits. */
  ghost predicate Sound(cfg: HostConfig, sys: System) {
    && (forall p <- sys.live :: p.host in sys.hosts)
    && (forall h <- sys.hosts ::
          && 0.0 <= sys.hosts[h].tokens <= cfg.maxTokens
          && sys.hosts[h].inFlight == |Held(sys.live, h)| <= cfg.maxConcurrency)
  }

  lemma ToppedUpWithin(cfg: HostConfig, tokens: real, elapsed: real)
    requires Sensible(cfg) && 0.0 <= tokens <= cfg.maxTokens && elapsed >= 0.0
    ensures 0.0 <= ToppedUp(cfg, tokens, elapsed) <= cfg.maxTokens
  {
    ProductSign(elapsed, cfg.refillPerSec);
  }

  lemma RefillStaysWithin(cfg: HostConfig, h: Host, measured: real, stamped: real)
    requires Sensible(cfg) && 0.0 <= h.tokens <= cfg.maxTokens
    ensures var r := Refilled(cfg, h, measured, stamped);
            0.0 <= r.tokens <= cfg.maxTokens && r.inFlight == h.inFlight
  {
    if measured - h.lastRefill > 0.0 {
      ToppedUpWithin(cfg, h.tokens, measured - h.lastRefill);
    }
  }

  lemma AcquireAccounts(cfg: HostConfig, h: Host, t: ClockReads)
    requires Sensible(cfg) && 0.0 <= h.tokens <= cfg.maxTokens && h.inFlight <= cfg.maxConcurrency
    ensures var (after, r) := Acquired(cfg, h, t);
            && 0.0 <= after.tokens <= cfg.maxTokens
            && after.inFlight == h.inFlight + (if r.Ok? then 1 else 0) <= cfg.maxConcurrency
  {
    RefillStaysWithin(cfg, h.(circuitOpenUntil := None), t.measured, t.stamped);
  }

  lemma HeldGrows(live: set<Permit>, p: Permit, host: string)
    requires p !in live
    ensures |Held(live + {p}, host)| == |Held(live, host)| + (if p.host == host then 1 else 0)
  {
    if p.host == host {
      assert Held(live + {p}, host) == Held(live, host) + {p};
    } else {
      assert Held(live + {p}, host) == Held(live, host);
    }
  }

  lemma AcquireIsSound(cfg: HostConfig, sys: System, raw: string, serial: nat, clock: ClockReads)
    requires Sensible(cfg) && Sound(cfg, sys) && Owned(sys, Acquire(raw, serial, clock))
    ensures Sound(cfg, Step(cfg, sys, Acquire(raw, serial, clock)))
  {
    var host, next := Normalize(raw), Step(cfg, sys, Acquire(raw, serial, clock));
    if host != "" {
      if host !in sys.hosts {
        assert Held(sys.live, host) == {};
      }
      var h := if host in sys.hosts then sys.hosts[host] else NewHost(cfg, clock.created);
      AcquireAccounts(cfg, h, clock);
      assert next.hosts == sys.hosts[host := Acquired(cfg, h, clock).0];
      forall g <- next.hosts ensures next.hosts[g].inFlight == |Held(next.live, g)| <= cfg.maxConcurrency {
        HeldGrows(sys.live, Permit(host, serial), g);
      }
    }
  }

  lemma FinishIsSound(cfg: HostConfig, sys: System, e: Event)
    requires Sound(cfg, sys) && Owned(sys, e) && e.Finish?
    ensures Sound(cfg, Step(cfg, sys, e))
    ensures sys.hosts[e.permit.host].inFlight > 0
  {
    var next := Step(cfg, sys, e);
    assert e.permit in Held(sys.live, e.permit.host);
    forall g <- next.hosts ensures Held(next.live, g) == Held(sys.live, g) - {e.permit} {
    }
    assert forall g <- next.hosts :: g != e.permit.host ==> e.permit !in Held(sys.live, g);
  }

  /** Every permit given back was counted, so the saturating subtraction never saturates. */
  lemma StepIsSound(cfg: HostConfig, sys: System, e: Event)
    requires Sensible(cfg) && Sound(cfg, sys) && Owned(sys, e)
    ensures Sound(cfg, Step(cfg, sys, e))
    ensures e.Finish? ==> sys.hosts[e.permit.host].inFlight > 0
  {
    if e.Acquire? {
      AcquireIsSound(cfg, sys, e.rawHost, e.serial, e.clock);
    } else {
      FinishIsSound(cfg, sys, e);
    }
  }

  /** Over every run: tokens within bounds, in_flight counts the live permits, never over the cap. */
  lemma {:induction false} RunIsSound(cfg: HostConfig, sys: System, run: seq<Event>)
    requires Sensible(cfg) && Sound(cfg, sys) && OwnedRun(cfg, sys, run)
    ensures Sound(cfg, After(cfg, sys, run))
    decreases |run|
  {
    if run != [] {
      StepIsSound(cfg, sys, run[0]);
      RunIsSound(cfg, Step(cfg, sys, run[0]), run[1..]);
    }
  }

  // ----- The rate law -----

  ghost predicate Ordered(t: ClockReads) {
    t.created <= t.checked <= t.measured <= t.stamped
  }

  ghost function Begin(e: Event): real {
    if e.Acquire? then e.clock.created else e.now
  }

  ghost function End(e: Event): real {
    if e.Acquire? then e.clock.stamped else e.now
  }

  /** The events follow each other on a monotonic clock, all within [from, to]. */
  ghost predicate Clocked(run: seq<Event>, from: real, to: real) {
    if run == [] then from <= to
    else
      && from <= Begin(run[0])
      && (run[0].Acquire? ==> Ordered(run[0].clock))
      && Clocked(run[1..], End(run[0]), to)
  }

  ghost function Grants(cfg: HostConfig, sys: System, run: seq<Event>, host: string): nat
    decreases |run|
  {
    if run == [] then 0
    else
      Spent(cfg, sys, run[0], host) + Grants(cfg, Step(cfg, sys, run[0]), run[1..], host)
  }

  /** Tokens a host will have at `now` if nothing is taken. */
  ghost function Potential(cfg: HostConfig, h: Host, now: real): real {
    MinReal(h.tokens + Earned(cfg, h.lastRefill, now), cfg.maxTokens)
  }

  ghost function Budget(cfg: HostConfig, sys: System, host: string, now: real): real {
    if host in sys.hosts then Potential(cfg, sys.hosts[host], now) else cfg.maxTokens
  }

  ghost predicate StampedBy(sys: System, now: real) {
    forall h <- sys.hosts :: sys.hosts[h].lastRefill <= now
  }

  ghost function Earned(cfg: HostConfig, from: real, to: real): real {
    (to - from) * cfg.refillPerSec
  }

  lemma EarnedAdds(cfg: HostConfig, from: real, mid: real, to: real)
    ensures Earned(cfg, from, to) == Earned(cfg, from, mid) + Earned(cfg, mid, to)
    ensures cfg.refillPerSec >= 0.0 && from <= mid ==> Earned(cfg, from, mid) >= 0.0
    ensures cfg.refillPerSec >= 0.0 && mid <= to ==> Earned(cfg, mid, to) >= 0.0
  {
  }

  lemma PotentialGrows(cfg: HostConfig, h: Host, from: real, to: real)
    requires Sensible(cfg) && from <= to
    ensures Potential(cfg, h, to) <= Potential(cfg, h, from) + Earned(cfg, from, to)
  {
    EarnedAdds(cfg, h.lastRefill, from, to);
    EarnedAdds(cfg, from, from, to);
  }

  lemma AcquireBudget(cfg: HostConfig, h: Host, t: ClockReads, from: real)
    requires Sensible(cfg) && 0.0 <= h.tokens <= cfg.maxTokens && h.lastRefill <= from
    requires from <= t.created && Ordered(t)
    ensures var (after, r) := Acquired(cfg, h, t);
            && after.lastRefill <= t.stamped
            && Potential(cfg, after, t.stamped) + (if r.Ok? then 1.0 else 0.0)
                 <= Potential(cfg, h, from) + Earned(cfg, from, t.stamped)
  {
    var (after, r) := Acquired(cfg, h, t);
    PotentialGrows(cfg, h, from, t.stamped);
    if !(h.circuitOpenUntil.Some? && t.checked < h.circuitOpenUntil.value) {
      var spent := if r.Ok? then 1.0 else 0.0;
      if t.measured <= h.lastRefill {
        assert after.lastRefill == h.lastRefill && after.tokens == h.tokens - spent;
        NoGain(cfg, h, h.lastRefill);
        assert from == h.lastRefill;
      } else {
        RefillThenSpend(cfg, h, t, from);
        assert after.lastRefill == t.stamped;
        assert after.tokens == Potential(cfg, h, t.measured) - spent;
        NoGain(cfg, after, t.stamped);
      }
    }
  }

  lemma NoGain(cfg: HostConfig, h: Host, now: real)
    requires h.lastRefill == now && h.tokens <= cfg.maxTokens
    ensures Potential(cfg, h, now) == h.tokens
  {
    assert (now - h.lastRefill) * cfg.refillPerSec == 0.0;
  }

  /** The time between the two clock reads of a refill earns nothing. */
  lemma RefillThenSpend(cfg: HostConfig, h: Host, t: ClockReads, from: real)
    requires Sensible(cfg) && from <= t.measured <= t.stamped
    ensures Potential(cfg, h, t.measured) <= Potential(cfg, h, from) + Earned(cfg, from, t.stamped)
  {
    PotentialGrows(cfg, h, from, t.measured);
    EarnedAdds(cfg, from, t.measured, t.stamped);
    EarnedAdds(cfg, t.measured, t.measured, t.stamped);
  }

  ghost function Spent(cfg: HostConfig, sys: System, e: Event, host: string): nat {
    if Touches(e, host) && Granted(cfg, sys, e) then 1 else 0
  }

  lemma AcquireStepBudget(cfg: HostConfig, sys: System, raw: string, serial: nat, clock: ClockReads, from: real)
    requires Sensible(cfg) && Sound(cfg, sys) && StampedBy(sys, from)
    requires from <= clock.created && Ordered(clock)
    ensures var e, host := Acquire(raw, serial, clock), Normalize(raw);
            && Budget(cfg, Step(cfg, sys, e), host, clock.stamped) + Spent(cfg, sys, e, host) as real
                 <= Budget(cfg, sys, host, from) + Earned(cfg, from, clock.stamped)
            && (host in Step(cfg, sys, e).hosts ==> Step(cfg, sys, e).hosts[host].lastRefill <= clock.stamped)
  {
    var e, host := Acquire(raw, serial, clock), Normalize(raw);
    EarnedAdds(cfg, from, clock.created, clock.stamped);
    if host != "" {
      var h := if host in sys.hosts then sys.hosts[host] else NewHost(cfg, clock.created);
      var (after, r) := Acquired(cfg, h, clock);
      assert Step(cfg, sys, e).hosts == sys.hosts[host := after];
      assert Spent(cfg, sys, e, host) == if r.Ok? then 1 else 0;
      if host in sys.hosts {
        AcquireBudget(cfg, h, clock, from);
      } else {
        AcquireBudget(cfg, h, clock, clock.created);
        NoGain(cfg, h, clock.created);
      }
    }
  }

  /** One event spends what it grants and lets the budget grow no faster than the refill rate. */
  lemma StepBudget(cfg: HostConfig, sys: System, e: Event, host: string, from: real)
    requires Sensible(cfg) && Sound(cfg, sys) && StampedBy(sys, from)
    requires from <= Begin(e) && (e.Acquire? ==> Ordered(e.clock))
    ensures Budget(cfg, Step(cfg, sys, e), host, End(e)) + Spent(cfg, sys, e, host) as real
              <= Budget(cfg, sys, host, from) + Earned(cfg, from, End(e))
    ensures host in Step(cfg, sys, e).hosts ==> Step(cfg, sys, e).hosts[host].lastRefill <= End(e)
  {
    if e.Acquire? && Touches(e, host) {
      AcquireStepBudget(cfg, sys, e.rawHost, e.serial, e.clock, from);
    } else {
      EarnedAdds(cfg, from, from, End(e));
      if host in sys.hosts {
        var after := Step(cfg, sys, e).hosts[host];
        assert after.tokens == sys.hosts[host].tokens && after.lastRefill == sys.hosts[host].lastRefill;
        PotentialGrows(cfg, sys.hosts[host], from, End(e));
      }
    }
  }

  lemma StepStamps(cfg: HostConfig, sys: System, e: Event, from: real)
    requires Sensible(cfg) && Sound(cfg, sys) && StampedBy(sys, from)
    requires from <= Begin(e) && (e.Acquire? ==> Ordered(e.clock))
    ensures StampedBy(Step(cfg, sys, e), End(e))
  {
    forall h <- Step(cfg, sys, e).hosts ensures Step(cfg, sys, e).hosts[h].lastRefill <= End(e) {
      StepBudget(cfg, sys, e, h, from);
    }
  }

  lemma {:induction false} GrantsWithinBudget(cfg: HostConfig, sys: System, run: seq<Event>, host: string,
      from: real, to: real)
    requires Sensible(cfg) && Sound(cfg, sys) && StampedBy(sys, from)
    requires OwnedRun(cfg, sys, run) && Clocked(run, from, to)
    ensures Grants(cfg, sys, run, host) as real <= Budget(cfg, sys, host, from) + Earned(cfg, from, to)
    decreases |run|
  {
    if run == [] {
      EarnedAdds(cfg, from, from, to);
      BudgetIsPositive(cfg, sys, host, from);
    } else {
      var e := run[0];
      StepIsSound(cfg, sys, e);
      StepBudget(cfg, sys, e, host, from);
      StepStamps(cfg, sys, e, from);
      GrantsWithinBudget(cfg, Step(cfg, sys, e), run[1..], host, End(e), to);
      EarnedAdds(cfg, from, End(e), to);
    }
  }

  lemma BudgetIsPositive(cfg: HostConfig, sys: System, host: string, now: real)
    requires Sensible(cfg) && Sound(cfg, sys) && StampedBy(sys, now)
    ensures Budget(cfg, sys, host, now) >= 0.0
  {
    if host in sys.hosts {
      EarnedAdds(cfg, sys.hosts[host].lastRefill, sys.hosts[host].lastRefill, now);
    }
  }

  lemma {:induction false} RunStamps(cfg: HostConfig, sys: System, run: seq<Event>, from: real, to: real)
    requires Sensible(cfg) && Sound(cfg, sys) && StampedBy(sys, from)
    requires OwnedRun(cfg, sys, run) && Clocked(run, from, to)
    ensures StampedBy(After(cfg, sys, run), to)
    decreases |run|
  {
    if run != [] {
      StepIsSound(cfg, sys, run[0]);
      StepStamps(cfg, sys, run[0], from);
      RunStamps(cfg, Step(cfg, sys, run[0]), run[1..], End(run[0]), to);
    }
  }

  lemma {:induction false} OwnedSplits(cfg: HostConfig, sys: System, early: seq<Event>, late: seq<Event>)
    requires OwnedRun(cfg, sys, early + late)
    ensures OwnedRun(cfg, sys, early) && OwnedRun(cfg, After(cfg, sys, early), late)
    decreases |early|
  {
    if early == [] {
      assert early + late == late;
    } else {
      assert (early + late)[1..] == early[1..] + late;
      OwnedSplits(cfg, Step(cfg, sys, early[0]), early[1..], late);
    }
  }

  /**
    The rate law. In any run from the idle limiter, whatever the other hosts do and however
    permits come back, the grants to one host within any interval [from, to] number at most
    max_tokens + refill_per_sec * (to - from).
   */
  lemma HostRateLaw(cfg: HostConfig, early: seq<Event>, within: seq<Event>, host: string, start: real, from: real,
      to: real)
    requires Sensible(cfg)
    requires OwnedRun(cfg, IDLE, early + within)
    requires Clocked(early, start, from) && Clocked(within, from, to)
    ensures Grants(cfg, After(cfg, IDLE, early), within, host) as real <= cfg.maxTokens + Earned(cfg, from, to)
  {
    OwnedSplits(cfg, IDLE, early, within);
    assert Sound(cfg, IDLE);
    RunIsSound(cfg, IDLE, early);
    RunStamps(cfg, IDLE, early, start, from);
    GrantsWithinBudget(cfg, After(cfg, IDLE, early), within, host, from, to);
  }

  // ----- The breaker -----

  /**
    While the breaker is open and no further 429 is reported for the host, every request
    for it before the reopening instant is refused.
   */
  lemma {:induction false} OpenBreakerRefuses(cfg: HostConfig, sys: System, run: seq<Event>, host: string,
      from: real, to: real)
    requires host in sys.hosts && sys.hosts[host].circuitOpenUntil.Some?
    requires Clocked(run, from, to) && to < sys.hosts[host].circuitOpenUntil.value
    requires forall e <- run :: e.Finish? && e.permit.host == host ==> !e.how.TooMany?
    ensures Grants(cfg, sys, run, host) == 0
    ensures host in After(cfg, sys, run).hosts
    ensures After(cfg, sys, run).hosts[host].circuitOpenUntil == sys.hosts[host].circuitOpenUntil
    ensures After(cfg, sys, run).hosts[host].tokens == sys.hosts[host].tokens
    decreases |run|
  {
    if run != [] {
      EndsBefore(run[1..], End(run[0]), to);
      OpenBreakerRefuses(cfg, Step(cfg, sys, run[0]), run[1..], host, End(run[0]), to);
    }
  }

  lemma {:induction false} EndsBefore(run: seq<Event>, from: real, to: real)
    requires Clocked(run, from, to)
    ensures from <= to
  {
    if run != [] {
      EndsBefore(run[1..], End(run[0]), to);
    }
  }

  /** The 429s reported for a host since its last success; other failures do not end the streak. */
  ghost function StreakAfter(n: nat, e: Event, host: string): nat {
    if !e.Finish? || e.permit.host != host then n
    else
      match e.how
      case Success => 0
      case SoftError => n
      case TooMany(_) => n + 1
  }

  ghost function Streak(n: nat, run: seq<Event>, host: string): nat
    decreases |run|
  {
    if run == [] then n else Streak(StreakAfter(n, run[0], host), run[1..], host)
  }

  /** The counter holds the streak, up to the largest 32-bit number. */
  ghost predicate Counted(sys: System, host: string, n: nat) {
    if host in sys.hosts then sys.hosts[host].consecutive429 == Min(n, U32_MAX) else n == 0
  }

  lemma {:induction false} CounterHoldsStreak(cfg: HostConfig, sys: System, run: seq<Event>, host: string, n: nat)
    requires Sound(cfg, sys) && Sensible(cfg) && OwnedRun(cfg, sys, run) && Counted(sys, host, n)
    ensures Counted(After(cfg, sys, run), host, Streak(n, run, host))
    decreases |run|
  {
    if run != [] {
      StepIsSound(cfg, sys, run[0]);
      CounterHoldsStreak(cfg, Step(cfg, sys, run[0]), run[1..], host, StreakAfter(n, run[0], host));
    }
  }

  /** A 429 sets the reopening instant exactly when the host's streak has reached the threshold. */
  lemma BreakerOpensIff(cfg: HostConfig, run: seq<Event>, permit: Permit, retryAfter: Option<real>, now: real)
    requires Sensible(cfg) && OwnedRun(cfg, IDLE, run)
    requires permit in After(cfg, IDLE, run).live && permit.host in After(cfg, IDLE, run).hosts
    ensures var e := Finish(permit, TooMany(retryAfter), now);
            var before := After(cfg, IDLE, run).hosts[permit.host].circuitOpenUntil;
            var after := Step(cfg, After(cfg, IDLE, run), e).hosts[permit.host].circuitOpenUntil;
            after == if Streak(0, run, permit.host) + 1 >= cfg.consecutive429Threshold
                     then Some(now + retryAfter.GetOr(cfg.circuitOpen)) else before
  {
    assert Sound(cfg, IDLE);
    CounterHoldsStreak(cfg, IDLE, run, permit.host, 0);
  }

  // ----- Isolation -----

  ghost function Only(run: seq<Event>, host: string): seq<Event> {
    if run == [] then []
    else (if Touches(run[0], host) then [run[0]] else []) + Only(run[1..], host)
  }

  ghost function Answers(cfg: HostConfig, sys: System, run: seq<Event>, host: string)
    : seq<Option<Result<string, AiError>>>
    decreases |run|
  {
    if run == [] then []
    else
      (if Touches(run[0], host) then [Answer(cfg, sys, run[0])] else [])
        + Answers(cfg, Step(cfg, sys, run[0]), run[1..], host)
  }

  /** Two systems that no caller of `host` can tell apart. */
  ghost predicate SameAt(a: System, b: System, host: string) {
    && (host in a.hosts <==> host in b.hosts)
    && (host in a.hosts ==> a.hosts[host] == b.hosts[host])
    && Held(a.live, host) == Held(b.live, host)
  }

  lemma OthersDoNotTouch(cfg: HostConfig, sys: System, e: Event, host: string)
    requires !Touches(e, host)
    ensures SameAt(Step(cfg, sys, e), sys, host)
  {
  }

  lemma OwnEventsAgree(cfg: HostConfig, a: System, b: System, e: Event, host: string)
    requires Touches(e, host) && SameAt(a, b, host)
    ensures SameAt(Step(cfg, a, e), Step(cfg, b, e), host)
    ensures Answer(cfg, a, e) == Answer(cfg, b, e)
  {
    var x, y := Step(cfg, a, e), Step(cfg, b, e);
    if e.Finish? {
      assert Held(x.live, host) == Held(a.live, host) - {e.permit};
      assert Held(y.live, host) == Held(b.live, host) - {e.permit};
    } else if Granted(cfg, a, e) {
      var p := Permit(host, e.serial);
      assert Held(x.live, host) == Held(a.live, host) + {p};
      assert Held(y.live, host) == Held(b.live, host) + {p};
    }
  }

  /**
    Non-interference. The state of a host, the permits held on it and every answer given to
    its callers are those of a run in which only that host's events happened.
   */
  lemma {:induction false} HostsAreIsolated(cfg: HostConfig, a: System, b: System, run: seq<Event>, host: string)
    requires SameAt(a, b, host)
    ensures SameAt(After(cfg, a, run), After(cfg, b, Only(run, host)), host)
    ensures Answers(cfg, a, run, host) == Answers(cfg, b, Only(run, host), host)
    decreases |run|
  {
    if run != [] {
      var e := run[0];
      if Touches(e, host) {
        OwnEventsAgree(cfg, a, b, e, host);
        HostsAreIsolated(cfg, Step(cfg, a, e), Step(cfg, b, e), run[1..], host);
        assert Only(run, host)[1..] == Only(run[1..], host);
      } else {
        OthersDoNotTouch(cfg, a, e, host);
        HostsAreIsolated(cfg, Step(cfg, a, e), b, run[1..], host);
        assert Only(run, host) == Only(run[1..], host);
      }
    }
  }

  // ----- Names -----

  lemma {:induction false} TrimStartPads(pad: string, s: string)
    requires forall c <- pad :: Text.IsWhitespace(c)
    ensures Text.TrimStart(pad + s) == Text.TrimStart(s)
  {
    if pad == [] {
      assert pad + s == s;
    } else {
      assert (pad + s)[1..] == pad[1..] + s;
      TrimStartPads(pad[1..], s);
    }
  }

  lemma {:induction false} TrimEndPads(s: string, pad: string)
    requires forall c <- pad :: Text.IsWhitespace(c)
    ensures Text.TrimEnd(s + pad) == Text.TrimEnd(s)
  {
    if pad == [] {
      assert s + pad == s;
    } else {
      assert (s + pad)[..|s + pad| - 1] == s + pad[..|pad| - 1];
      TrimEndPads(s, pad[..|pad| - 1]);
    }
  }

  lemma {:induction false} TrimStartTail(s: string, pad: string)
    requires forall c <- pad :: Text.IsWhitespace(c)
    ensures Text.TrimEnd(Text.TrimStart(s + pad)) == Text.TrimEnd(Text.TrimStart(s))
  {
    if s == [] {
      assert s + pad == pad + [];
      TrimStartPads(pad, []);
    } else if Text.IsWhitespace(s[0]) {
      assert (s + pad)[1..] == s[1..] + pad;
      TrimStartTail(s[1..], pad);
    } else {
      TrimEndPads(s, pad);
    }
  }

  lemma {:induction false} TrimStartLowers(s: string)
    ensures Text.TrimStart(Text.Lower(s)) == Text.Lower(Text.TrimStart(s))
  {
    if s != [] && Text.IsWhitespace(s[0]) {
      assert Text.Lower(s)[1..] == Text.Lower(s[1..]);
      TrimStartLowers(s[1..]);
    }
  }

  lemma {:induction false} TrimEndLowers(s: string)
    ensures Text.TrimEnd(Text.Lower(s)) == Text.Lower(Text.TrimEnd(s))
  {
    if s != [] && Text.IsWhitespace(s[|s| - 1]) {
      assert Text.Lower(s)[..|s| - 1] == Text.Lower(s[..|s| - 1]);
      TrimEndLowers(s[..|s| - 1]);
    }
  }

  /**
    All spellings of a host that differ in surrounding white space or ASCII case reach one
    state, and the name a permit carries is its own normal form, so it is released there.
   */
  lemma SpellingsShareOneState(cfg: HostConfig, hosts: Hosts, before: string, host: string, after: string,
      t: ClockReads)
    requires forall c <- before + after :: Text.IsWhitespace(c)
    ensures Normalize(before + host + after) == Normalize(host) == Normalize(Text.Lower(host))
    ensures Normalize(Normalize(host)) == Normalize(host)
    ensures AcquireAt(cfg, hosts, before + host + after, t) == AcquireAt(cfg, hosts, Text.Lower(host), t)
  {
    assert forall c <- before :: c in before + after;
    assert forall c <- after :: c in before + after;
    assert before + host + after == before + (host + after);
    TrimStartPads(before, host + after);
    TrimStartTail(host, after);
    TrimStartLowers(host);
    TrimEndLowers(Text.TrimStart(host));
    Text.LowerTwice(Text.Trim(host));
    Text.TrimTrims(host);
    Text.LowerKeepsTrimmed(Text.Trim(host));
    Text.TrimFixes(Normalize(host));
  }
}
