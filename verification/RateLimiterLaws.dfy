/** What the request limiter promises over whole runs. */
module RateLimitingLaws {
  import opened Outcomes
  import opened MachineInts
  import opened RateLimiting
  import Sets

  datatype Arrival = Arrival(request: Request, now: nat)

  ghost predicate Chronological(run: seq<Arrival>) {
    forall i, j :: 0 <= i < j < |run| ==> run[i].now <= run[j].now
  }

  // ----- The reference limiter: a counter is gone the moment its window ends -----

  ghost predicate Used(open: Table, c: Charge) {
    c.key in open && open[c.key].count >= c.limit
  }

  ghost function FirstUsed(open: Table, charges: seq<Charge>, now: nat): Option<Limited> {
    if charges == [] then None
    else if Used(open, charges[0]) then
      Some(Limited(charges[0].limit, RetryAfter(open[charges[0].key].started, now)))
    else FirstUsed(open, charges[1..], now)
  }

  ghost function Spent(open: Table, key: CounterKey): nat {
    if key in open then open[key].count else 0
  }

  ghost function Bump(open: Table, key: CounterKey, now: nat): Table
    requires Spent(open, key) < U32_MAX
  {
    open[key := Counter(if key in open then open[key].started else now, Spent(open, key) + 1)]
  }

  ghost function KeysOf(charges: seq<Charge>): set<CounterKey> {
    set c <- charges :: c.key
  }

  /** All charged counters move at once. */
  ghost function BumpAll(open: Table, charges: seq<Charge>, now: nat): Table
    requires forall c <- charges :: Spent(open, c.key) < U32_MAX
  {
    map k | k in open.Keys + KeysOf(charges) ::
      if k !in KeysOf(charges) then open[k]
      else Counter(if k in open then open[k].started else now, Spent(open, k) + 1)
  }

  /** The smallest room left in any charged counter. */
  ghost function RoomLeft(open: Table, charges: seq<Charge>, limit: U32): U32 {
    if charges == [] then limit
    else
      var c := charges[|charges| - 1];
      var rest := RoomLeft(open, charges[..|charges| - 1], limit);
      Min(rest, SaturatingSub(c.limit, Spent(open, c.key) + 1))
  }

  ghost function ReferenceSettle(remembered: Table, charges: seq<Charge>, limit: U32, now: nat): (Table, Verdict) {
    if |remembered| >= MAX_IDENTITIES then (remembered, TableFull(Limited(limit, 60)))
    else if FirstUsed(remembered, charges, now).Some? then
      (remembered, OverLimit(FirstUsed(remembered, charges, now).value))
    else
      UnusedHaveRoom(remembered, charges, now);
      (BumpAll(remembered, charges, now), Allowed(Allowance(limit, RoomLeft(remembered, charges, limit))))
  }

  ghost function ReferenceStep(cfg: Config, open: Table, a: Arrival): (Table, Verdict) {
    var remembered := Live(open, a.now);
    if !cfg.enabled || Classify(cfg, a.request).None? then (remembered, Unlimited)
    else
      var (bucket, limit) := Classify(cfg, a.request).value;
      ReferenceSettle(remembered, Charges(cfg, a.request, bucket, limit), limit, a.now)
  }

  lemma {:induction false} UnusedHaveRoom(open: Table, charges: seq<Charge>, now: nat)
    requires FirstUsed(open, charges, now).None?
    ensures forall c <- charges :: !Used(open, c) && Spent(open, c.key) < U32_MAX
  {
    if charges != [] {
      UnusedHaveRoom(open, charges[1..], now);
      assert charges == [charges[0]] + charges[1..];
    }
  }

  // ----- One step of the lazy limiter is one step of the reference limiter -----

  lemma LiveSize(counters: Table, now: nat)
    ensures |Live(counters, now)| <= |counters|
  {
    var live := Live(counters, now);
    assert live.Keys <= counters.Keys;
    Sets.SubsetSize(live.Keys, counters.Keys);
  }

  lemma LiveTwice(counters: Table, now: nat, later: nat)
    requires now <= later
    ensures Live(Live(counters, now), later) == Live(counters, later)
  {
  }

  /** Whatever the purge schedule does, capacity is judged on the unexpired counters. */
  lemma PurgeIsUnobservable(s: LimiterState, now: nat)
    ensures Live(Purged(s, now).counters, now) == Live(s.counters, now)
    ensures |Purged(s, now).counters| >= MAX_IDENTITIES <==> |Live(s.counters, now)| >= MAX_IDENTITIES
  {
    LiveTwice(s.counters, now, now);
    LiveSize(s.counters, now);
  }

  lemma {:induction false} BlockedIsUsed(counters: Table, charges: seq<Charge>, now: nat)
    ensures FirstBlocked(counters, charges, now) == FirstUsed(Live(counters, now), charges, now)
  {
    if charges != [] {
      BlockedIsUsed(counters, charges[1..], now);
    }
  }

  lemma ChargeOneBumps(counters: Table, key: CounterKey, now: nat)
    requires Spent(Live(counters, now), key) < U32_MAX
    ensures Live(ChargeOne(counters, key, now), now) == Bump(Live(counters, now), key, now)
    ensures ChargeOne(counters, key, now)[key] == Bump(Live(counters, now), key, now)[key]
  {
  }

  lemma BumpOneMore(open: Table, done: seq<Charge>, c: Charge, now: nat)
    requires c.key !in KeysOf(done)
    requires forall d <- done + [c] :: Spent(open, d.key) < U32_MAX
    ensures forall d <- done :: Spent(open, d.key) < U32_MAX
    ensures Spent(open, c.key) < U32_MAX
    ensures Spent(BumpAll(open, done, now), c.key) == Spent(open, c.key)
    ensures Bump(BumpAll(open, done, now), c.key, now) == BumpAll(open, done + [c], now)
  {
    assert c in done + [c];
    assert forall d <- done :: d in done + [c];
    assert KeysOf(done + [c]) == KeysOf(done) + {c.key};
  }

  lemma NextKeyIsNew(done: seq<Charge>, todo: seq<Charge>)
    requires DistinctKeys(done + todo) && todo != []
    ensures todo[0].key !in KeysOf(done)
    ensures done + todo == done + [todo[0]] + todo[1..]
  {
    var all := done + todo;
    assert all[|done|] == todo[0];
    assert forall k :: 0 <= k < |done| ==> all[k] == done[k];
  }

  lemma ChargeStep(counters: Table, done: seq<Charge>, c: Charge, open: Table, limit: U32, now: nat)
    requires c.key !in KeysOf(done)
    requires forall d <- done + [c] :: Spent(open, d.key) < U32_MAX
    requires forall d <- done :: Spent(open, d.key) < U32_MAX
    requires Live(counters, now) == BumpAll(open, done, now)
    ensures var next := ChargeOne(counters, c.key, now);
            && Live(next, now) == BumpAll(open, done + [c], now)
            && Min(RoomLeft(open, done, limit), SaturatingSub(c.limit, next[c.key].count)) ==
                 RoomLeft(open, done + [c], limit)
  {
    BumpOneMore(open, done, c, now);
    ChargeOneBumps(counters, c.key, now);
    assert (done + [c])[..|done|] == done;
  }

  lemma {:induction false} ChargeAllBumps(counters: Table, done: seq<Charge>, todo: seq<Charge>, open: Table,
      limit: U32, now: nat)
    requires DistinctKeys(done + todo)
    requires forall c <- done + todo :: Spent(open, c.key) < U32_MAX
    requires forall c <- done :: Spent(open, c.key) < U32_MAX
    requires Live(counters, now) == BumpAll(open, done, now)
    ensures var (after, remaining) := ChargeAll(counters, todo, RoomLeft(open, done, limit), now);
            && Live(after, now) == BumpAll(open, done + todo, now)
            && remaining == RoomLeft(open, done + todo, limit)
    decreases |todo|
  {
    if todo == [] {
      assert done + todo == done;
    } else {
      NextKeyIsNew(done, todo);
      assert forall d <- done + [todo[0]] :: d in done + todo;
      ChargeStep(counters, done, todo[0], open, limit, now);
      ChargeAllBumps(ChargeOne(counters, todo[0].key, now), done + [todo[0]], todo[1..], open, limit, now);
    }
  }

  /** Testing and charging any distinct keys agrees with the reference limiter. */
  lemma ChargingRefines(counters: Table, charges: seq<Charge>, limit: U32, now: nat)
    requires DistinctKeys(charges)
    requires FirstUsed(Live(counters, now), charges, now).None?
    ensures forall c <- charges :: Spent(Live(counters, now), c.key) < U32_MAX
    ensures var (after, remaining) := ChargeAll(counters, charges, limit, now);
            && Live(after, now) == BumpAll(Live(counters, now), charges, now)
            && remaining == RoomLeft(Live(counters, now), charges, limit)
  {
    var open := Live(counters, now);
    UnusedHaveRoom(open, charges, now);
    assert BumpAll(open, [], now) == open;
    assert [] + charges == charges;
    ChargeAllBumps(counters, [], charges, open, limit, now);
  }

  lemma SettleRefines(p: LimiterState, charges: seq<Charge>, limit: U32, now: nat)
    requires DistinctKeys(charges)
    requires |p.counters| >= MAX_IDENTITIES <==> |Live(p.counters, now)| >= MAX_IDENTITIES
    ensures var (after, verdict) := Settle(p, charges, limit, now);
            (Live(after.counters, now), verdict) == ReferenceSettle(Live(p.counters, now), charges, limit, now)
  {
    BlockedIsUsed(p.counters, charges, now);
    if FirstUsed(Live(p.counters, now), charges, now).None? {
      ChargingRefines(p.counters, charges, limit, now);
    }
  }

  /**
    The lazy limiter seen through its unexpired counters is the reference limiter, and it
    answers the same: decision, limit, remaining count and retry time.
   */
  lemma StepRefinesReference(cfg: Config, s: LimiterState, a: Arrival)
    ensures var (after, verdict) := Step(cfg, s, a.request, a.now);
            (Live(after.counters, a.now), verdict) == ReferenceStep(cfg, s.counters, a)
  {
    PurgeIsUnobservable(s, a.now);
    if cfg.enabled && Classify(cfg, a.request).Some? {
      var (bucket, limit) := Classify(cfg, a.request).value;
      ChargesAreDistinct(cfg, a.request);
      SettleRefines(Purged(s, a.now), Charges(cfg, a.request, bucket, limit), limit, a.now);
    }
  }

  // ----- Whole runs -----

  ghost function StateAfter(cfg: Config, s: LimiterState, run: seq<Arrival>): LimiterState {
    if run == [] then s
    else
      var a := run[|run| - 1];
      Step(cfg, StateAfter(cfg, s, run[..|run| - 1]), a.request, a.now).0
  }

  ghost function VerdictOf(cfg: Config, s: LimiterState, run: seq<Arrival>, i: nat): Verdict
    requires i < |run|
  {
    Step(cfg, StateAfter(cfg, s, run[..i]), run[i].request, run[i].now).1
  }

  ghost function ReferenceAfter(cfg: Config, open: Table, run: seq<Arrival>): Table {
    if run == [] then open
    else ReferenceStep(cfg, ReferenceAfter(cfg, open, run[..|run| - 1]), run[|run| - 1]).0
  }

  ghost function ReferenceVerdictOf(cfg: Config, open: Table, run: seq<Arrival>, i: nat): Verdict
    requires i < |run|
  {
    ReferenceStep(cfg, ReferenceAfter(cfg, open, run[..i]), run[i]).1
  }

  lemma {:induction false} RunRefinesReference(cfg: Config, s: LimiterState, run: seq<Arrival>, now: nat)
    requires Chronological(run)
    requires run != [] ==> run[|run| - 1].now <= now
    ensures Live(StateAfter(cfg, s, run).counters, now) == Live(ReferenceAfter(cfg, s.counters, run), now)
    decreases |run|
  {
    if run != [] {
      var a, before := run[|run| - 1], run[..|run| - 1];
      RunRefinesReference(cfg, s, before, a.now);
      var lazy, open := StateAfter(cfg, s, before), ReferenceAfter(cfg, s.counters, before);
      StepRefinesReference(cfg, lazy, a);
      assert ReferenceStep(cfg, lazy.counters, a) == ReferenceStep(cfg, open, a);
      LiveTwice(StateAfter(cfg, s, run).counters, a.now, now);
    }
  }

  /**
    Lazy purging cannot be observed. From any state, with any position of the purge
    schedule, every request of a chronological run gets the reference limiter's answer.
   */
  lemma LazyPurgeIsUnobservable(cfg: Config, s: LimiterState, run: seq<Arrival>, i: nat)
    requires Chronological(run) && i < |run|
    ensures VerdictOf(cfg, s, run, i) == ReferenceVerdictOf(cfg, s.counters, run, i)
    ensures VerdictOf(cfg, s, run, i).TableFull? <==>
              && cfg.enabled && Classify(cfg, run[i].request).Some?
              && |Live(ReferenceAfter(cfg, s.counters, run[..i]), run[i].now)| >= MAX_IDENTITIES
  {
    RunRefinesReference(cfg, s, run[..i], run[i].now);
    StepRefinesReference(cfg, StateAfter(cfg, s, run[..i]), run[i]);
  }
}
