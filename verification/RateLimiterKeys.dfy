/** Whose counters a request moves, and what exactly it is answered. */
module RateLimitingKeys {
  import opened Outcomes
  import opened MachineInts
  import opened RateLimiting
  import opened RateLimitingLaws
  import opened RateLimitingWindows
  import Text

  // ----- Routes and identities -----

  ghost predicate IsSession(req: Request) {
    "/v1/session/" <= req.path || "/v1/auth/" <= req.path
  }

  ghost predicate IsFeedback(req: Request) {
    && req.post
    && ("/v1/feedback" <= req.path || ("/v1/games/" <= req.path && Text.EndsWith(req.path, "/play-intent")))
  }

  /** Where a path and method are counted; the kinds exclude each other. */
  ghost predicate BelongsTo(req: Request, bucket: Bucket) {
    match bucket
    case Session => IsSession(req)
    case Search => req.path == "/v1/search"
    case Feedback => IsFeedback(req)
    case Read => Metered(req) && !IsSession(req) && req.path != "/v1/search" && !IsFeedback(req)
    case Global => false
  }

  ghost predicate Metered(req: Request) {
    "/v1/" <= req.path || req.path == "/openapi.json"
  }

  /** The address that counts: the peer's, unless a trusted proxy names another. */
  ghost predicate SeenAt(cfg: Config, req: Request, ip: string) {
    if cfg.trustProxyHeaders && req.proxyIp.Some? then req.proxyIp == Some(ip) else req.peerIp == Some(ip)
  }

  /** Who the request is, under each of its names: the device or else the session, and the address. */
  ghost predicate Named(cfg: Config, req: Request, identity: string) {
    || (req.device.Some? && identity == "device:" + req.device.value)
    || (req.device.None? && req.bearer.Some? && identity == "session:" + req.bearer.value)
    || (exists ip :: SeenAt(cfg, req, ip) && identity == "ip:" + ip)
    || (req.device.None? && req.bearer.None? && (forall ip :: !SeenAt(cfg, req, ip)) && identity == "unidentified")
  }

  ghost predicate Owns(cfg: Config, req: Request, key: CounterKey) {
    || (Metered(req) && key == CounterKey(Global, "all"))
    || (BelongsTo(req, key.bucket) && Named(cfg, req, key.identity))
  }

  lemma KindsAreExclusive(req: Request, a: Bucket, b: Bucket)
    requires BelongsTo(req, a) && BelongsTo(req, b)
    ensures a == b
    ensures Metered(req)
  {
    assert "/v1/session/" <= req.path ==> req.path[4] == req.path[6] == 's';
    assert "/v1/auth/" <= req.path ==> req.path[4] == 'a';
    assert req.path == "/v1/search" ==> req.path[4] == 's' && req.path[6] == 'a';
    assert "/v1/feedback" <= req.path ==> req.path[4] == 'f';
    assert "/v1/games/" <= req.path ==> req.path[4] == 'g';
  }

  lemma RouteIsClassified(cfg: Config, req: Request)
    ensures Classify(cfg, req).Some? <==> Metered(req)
    ensures Metered(req) ==>
              var (bucket, limit) := Classify(cfg, req).value;
              BelongsTo(req, bucket) && limit == LimitOf(cfg, bucket)
  {
  }

  lemma IdentitiesAreNames(cfg: Config, req: Request, identity: string)
    ensures identity in Identities(cfg, req) <==> Named(cfg, req, identity)
  {
    var ip := ClientIp(cfg, req);
    assert forall seen :: SeenAt(cfg, req, seen) <==> ip == Some(seen);
    if ip.Some? {
      assert SeenAt(cfg, req, ip.value);
      assert "ip:" + ip.value in Identities(cfg, req);
    }
  }

  lemma ChargesAreOwned(cfg: Config, req: Request, key: CounterKey)
    requires Metered(req)
    ensures var (bucket, limit) := Classify(cfg, req).value;
            key in KeysOf(Charges(cfg, req, bucket, limit)) <==> Owns(cfg, req, key)
  {
    RouteIsClassified(cfg, req);
    var (bucket, limit) := Classify(cfg, req).value;
    var ids, charges := Identities(cfg, req), Charges(cfg, req, bucket, limit);
    IdentitiesAreNames(cfg, req, key.identity);
    if BelongsTo(req, key.bucket) {
      KindsAreExclusive(req, key.bucket, bucket);
      if key.identity in ids {
        var i :| 0 <= i < |ids| && ids[i] == key.identity;
        assert charges[i].key == key && charges[i] in charges;
      }
    }
    assert charges[|ids|].key == CounterKey(Global, "all") && charges[|ids|] in charges;
    if key in KeysOf(charges) {
      var i :| 0 <= i < |charges| && charges[i].key == key;
      assert i < |ids| ==> ids[i] in ids;
    }
  }

  // ----- The exact answer -----

  /** The counters whose last minute is not over. */
  ghost predicate Running(counters: Table, now: nat, open: Table) {
    && (forall key :: key in open <==> key in counters && now < counters[key].started + 60_000_000_000)
    && (forall key <- open :: open[key] == counters[key])
  }

  /** One of the request's own counters is used up. */
  ghost predicate Exhausted(cfg: Config, req: Request, open: Table, key: CounterKey) {
    Owns(cfg, req, key) && key in open && open[key].count >= LimitOf(cfg, key.bucket)
  }

  ghost function LeftAfter(cfg: Config, open: Table, key: CounterKey): nat {
    SaturatingSub(LimitOf(cfg, key.bucket), Spent(open, key) + 1)
  }

  /** Allowed: the limit of the request's own kind, and the least that any of its counters has left. */
  ghost predicate TrueAllowance(cfg: Config, req: Request, open: Table, a: Allowance) {
    && (forall bucket | BelongsTo(req, bucket) :: a.limit == LimitOf(cfg, bucket))
    && (forall key | Owns(cfg, req, key) :: a.remaining <= LeftAfter(cfg, open, key))
    && (exists key :: Owns(cfg, req, key) && a.remaining == LeftAfter(cfg, open, key))
  }

  /** Refused: the limit of a used-up counter, and how many whole seconds its window is still open, at least one. */
  ghost predicate TrueRefusal(cfg: Config, req: Request, open: Table, now: nat, l: Limited) {
    exists key :: Exhausted(cfg, req, open, key) && l.limit == LimitOf(cfg, key.bucket)
      && l.retryAfterSeconds ==
           Max(SaturatingSub(60_000_000_000, SaturatingSub(now, open[key].started)) / 1_000_000_000, 1)
  }

  ghost predicate ExactVerdict(cfg: Config, req: Request, open: Table, now: nat, verdict: Verdict) {
    if !cfg.enabled || !Metered(req) then verdict.Unlimited?
    else if |open| >= 100_000 then
      && verdict.TableFull? && verdict.limited.retryAfterSeconds == 60
      && forall bucket | BelongsTo(req, bucket) :: verdict.limited.limit == LimitOf(cfg, bucket)
    else if exists key :: Exhausted(cfg, req, open, key) then
      verdict.OverLimit? && TrueRefusal(cfg, req, open, now, verdict.limited)
    else
      verdict.Allowed? && TrueAllowance(cfg, req, open, verdict.allowance)
  }

  lemma {:induction false} FirstUsedIsUsed(open: Table, charges: seq<Charge>, now: nat)
    ensures FirstUsed(open, charges, now).None? <==> forall c <- charges :: !Used(open, c)
    ensures FirstUsed(open, charges, now).Some? ==>
              exists c <- charges ::
                && Used(open, c)
                && FirstUsed(open, charges, now).value == Limited(c.limit, RetryAfter(open[c.key].started, now))
  {
    if charges != [] {
      FirstUsedIsUsed(open, charges[1..], now);
      assert charges == [charges[0]] + charges[1..];
    }
  }

  lemma {:induction false} RoomIsLeast(open: Table, charges: seq<Charge>, limit: U32)
    ensures RoomLeft(open, charges, limit) <= limit
    ensures forall c <- charges :: RoomLeft(open, charges, limit) <= SaturatingSub(c.limit, Spent(open, c.key) + 1)
    ensures RoomLeft(open, charges, limit) == limit
            || exists c <- charges :: RoomLeft(open, charges, limit) == SaturatingSub(c.limit, Spent(open, c.key) + 1)
  {
    if charges != [] {
      var before, last := charges[..|charges| - 1], charges[|charges| - 1];
      RoomIsLeast(open, before, limit);
      assert charges == before + [last];
      assert last in charges;
    }
  }

  /** Each charge is the charge of an owned counter, by that counter's limit, and every owned counter has one. */
  ghost predicate Covers(cfg: Config, req: Request, charges: seq<Charge>) {
    && (forall c <- charges :: Owns(cfg, req, c.key) && c.limit == LimitOf(cfg, c.key.bucket))
    && (forall key | Owns(cfg, req, key) :: Charge(key, LimitOf(cfg, key.bucket)) in charges)
  }

  lemma ChargesCover(cfg: Config, req: Request)
    requires Metered(req)
    ensures var (bucket, limit) := Classify(cfg, req).value;
            Covers(cfg, req, Charges(cfg, req, bucket, limit))
  {
    RouteIsClassified(cfg, req);
    ChargesAreDistinct(cfg, req);
    var (bucket, limit) := Classify(cfg, req).value;
    var charges := Charges(cfg, req, bucket, limit);
    forall c <- charges ensures Owns(cfg, req, c.key) {
      ChargesAreOwned(cfg, req, c.key);
    }
    forall key | Owns(cfg, req, key) ensures Charge(key, LimitOf(cfg, key.bucket)) in charges {
      ChargesAreOwned(cfg, req, key);
      var c :| c in charges && c.key == key;
    }
  }

  lemma RefusalIsTrue(cfg: Config, req: Request, open: Table, charges: seq<Charge>, now: nat)
    requires Covers(cfg, req, charges)
    ensures FirstUsed(open, charges, now).Some? <==> exists key :: Exhausted(cfg, req, open, key)
    ensures FirstUsed(open, charges, now).Some? ==>
              TrueRefusal(cfg, req, open, now, FirstUsed(open, charges, now).value)
  {
    var used := FirstUsed(open, charges, now);
    FirstUsedIsUsed(open, charges, now);
    if used.Some? {
      var c :| c in charges && Used(open, c) && used.value == Limited(c.limit, RetryAfter(open[c.key].started, now));
      assert Exhausted(cfg, req, open, c.key);
    } else {
      forall key ensures !Exhausted(cfg, req, open, key) {
        if Owns(cfg, req, key) {
          assert Charge(key, LimitOf(cfg, key.bucket)) in charges;
        }
      }
    }
  }

  lemma AllowanceIsTrue(cfg: Config, req: Request, open: Table, charges: seq<Charge>, bucket: Bucket)
    requires Covers(cfg, req, charges) && BelongsTo(req, bucket)
    requires exists key :: Owns(cfg, req, key) && key.bucket == bucket
    ensures TrueAllowance(cfg, req, open,
                          Allowance(LimitOf(cfg, bucket), RoomLeft(open, charges, LimitOf(cfg, bucket))))
  {
    var limit := LimitOf(cfg, bucket);
    var room := RoomLeft(open, charges, limit);
    RoomIsLeast(open, charges, limit);
    forall other | BelongsTo(req, other) ensures limit == LimitOf(cfg, other) {
      KindsAreExclusive(req, bucket, other);
    }
    forall key | Owns(cfg, req, key) ensures room <= LeftAfter(cfg, open, key) {
      assert Charge(key, LimitOf(cfg, key.bucket)) in charges;
    }
    var key :| Owns(cfg, req, key) && key.bucket == bucket;
    if room != LeftAfter(cfg, open, key) {
      var c :| c in charges && room == SaturatingSub(c.limit, Spent(open, c.key) + 1);
      assert Owns(cfg, req, c.key);
    }
  }

  lemma OwnKindIsOwned(cfg: Config, req: Request, bucket: Bucket)
    requires Metered(req) && BelongsTo(req, bucket)
    ensures exists key :: Owns(cfg, req, key) && key.bucket == bucket
  {
    var identity := Identities(cfg, req)[0];
    IdentitiesAreNames(cfg, req, identity);
    assert Owns(cfg, req, CounterKey(bucket, identity));
  }

  lemma SettlingIsExact(cfg: Config, req: Request, open: Table, now: nat)
    requires cfg.enabled && Metered(req)
    ensures var (bucket, limit) := Classify(cfg, req).value;
            ExactVerdict(cfg, req, open, now,
                         ReferenceSettle(open, Charges(cfg, req, bucket, limit), limit, now).1)
  {
    RouteIsClassified(cfg, req);
    var (bucket, limit) := Classify(cfg, req).value;
    var charges := Charges(cfg, req, bucket, limit);
    ChargesCover(cfg, req);
    OwnKindIsOwned(cfg, req, bucket);
    RefusalIsTrue(cfg, req, open, charges, now);
    AllowanceIsTrue(cfg, req, open, charges, bucket);
    forall other | BelongsTo(req, other) ensures limit == LimitOf(cfg, other) {
      KindsAreExclusive(req, bucket, other);
    }
  }

  /**
    The answer to a request, exactly. It is unlimited when nothing is metered; refused when a
    hundred thousand counters are running; refused when one of its own counters is used up, with
    that counter's limit and remaining time; and otherwise allowed, with the least that is left.
    An allowed request moves exactly its own counters, by one each, and any other request none.
   */
  lemma CheckIsExact(cfg: Config, s: LimiterState, req: Request, now: nat)
    ensures var (after, verdict) := Step(cfg, s, req, now);
            var open := Live(s.counters, now);
            && ExactVerdict(cfg, req, open, now, verdict)
            && forall key :: Spent(Live(after.counters, now), key) ==
                               Spent(open, key) + if verdict.Allowed? && Owns(cfg, req, key) then 1 else 0
  {
    var open := Live(s.counters, now);
    var (after, verdict) := Step(cfg, s, req, now);
    StepRefinesReference(cfg, s, Arrival(req, now));
    RouteIsClassified(cfg, req);
    if cfg.enabled && Metered(req) {
      SettlingIsExact(cfg, req, open, now);
    }
    forall key ensures Spent(Live(after.counters, now), key) ==
                         Spent(open, key) + if verdict.Allowed? && Owns(cfg, req, key) then 1 else 0
    {
      ChargedOnceOrNotAtAll(cfg, s, Arrival(req, now), key);
      if verdict.Allowed? {
        ChargesAreOwned(cfg, req, key);
      }
    }
  }

  /** The counters that count are those that started less than a minute ago. */
  lemma RunningCountersAreLive(counters: Table, now: nat)
    ensures Running(counters, now, Live(counters, now))
  {
  }

  // ----- Headers that do not matter -----

  lemma SameChargesSameStep(cfg: Config, s: LimiterState, req: Request, other: Request, now: nat)
    requires Classify(cfg, other) == Classify(cfg, req) && Identities(cfg, other) == Identities(cfg, req)
    ensures Step(cfg, s, other, now) == Step(cfg, s, req, now)
  {
  }

  /** Without trust in proxies their header changes nothing. */
  lemma UntrustedHeadersAreIgnored(cfg: Config, s: LimiterState, req: Request, now: nat, ip: Option<string>)
    requires !cfg.trustProxyHeaders
    ensures Step(cfg, s, req.(proxyIp := ip), now) == Step(cfg, s, req, now)
  {
    SameChargesSameStep(cfg, s, req, req.(proxyIp := ip), now);
  }

  /** With it, an address that the proxy names hides the peer's. */
  lemma TrustedHeadersHideThePeer(cfg: Config, s: LimiterState, req: Request, now: nat, ip: Option<string>)
    requires cfg.trustProxyHeaders && req.proxyIp.Some?
    ensures Step(cfg, s, req.(peerIp := ip), now) == Step(cfg, s, req, now)
  {
    SameChargesSameStep(cfg, s, req, req.(peerIp := ip), now);
  }

  /** A device hides the session that comes with it. */
  lemma DevicesHideSessions(cfg: Config, s: LimiterState, req: Request, now: nat, bearer: Option<string>)
    requires req.device.Some?
    ensures Step(cfg, s, req.(bearer := bearer), now) == Step(cfg, s, req, now)
  {
    SameChargesSameStep(cfg, s, req, req.(bearer := bearer), now);
  }
}
