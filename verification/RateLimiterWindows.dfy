/** How much a key can be charged: per request, per window, and over any stretch of time. */
module RateLimitingWindows {
  import opened Outcomes
  import opened MachineInts
  import opened RateLimiting
  import opened RateLimitingLaws
  import Sets

  ghost predicate Charged(cfg: Config, a: Arrival, verdict: Verdict, key: CounterKey) {
    && verdict.Allowed?
    && Classify(cfg, a.request).Some?
    && var (bucket, limit) := Classify(cfg, a.request).value;
       key in KeysOf(Charges(cfg, a.request, bucket, limit))
  }

  /** At least one request is let through in a window, even for a limit of zero. */
  ghost function Allotment(cfg: Config, key: CounterKey): nat {
    Max(LimitOf(cfg, key.bucket), 1)
  }

  /**
    A request moves an open counter by exactly one if it was allowed and names that
    counter, and otherwise not at all; it moves no counter that is used up.
   */
  lemma ChargedOnceOrNotAtAll(cfg: Config, s: LimiterState, a: Arrival, key: CounterKey)
    ensures var (after, verdict) := Step(cfg, s, a.request, a.now);
            var before, now := Live(s.counters, a.now), Live(after.counters, a.now);
            && Spent(now, key) == Spent(before, key) + (if Charged(cfg, a, verdict, key) then 1 else 0)
            && (key in now <==> key in before || Charged(cfg, a, verdict, key))
            && (key in now ==> now[key].started == if key in before then before[key].started else a.now)
            && (Charged(cfg, a, verdict, key) && key in before ==> before[key].count < LimitOf(cfg, key.bucket))
  {
    StepRefinesReference(cfg, s, a);
    var open := Live(s.counters, a.now);
    if cfg.enabled && Classify(cfg, a.request).Some? {
      var (bucket, limit) := Classify(cfg, a.request).value;
      var charges := Charges(cfg, a.request, bucket, limit);
      ChargesAreDistinct(cfg, a.request);
      if FirstUsed(open, charges, a.now).None? {
        UnusedHaveRoom(open, charges, a.now);
        if key in KeysOf(charges) {
          var c :| c in charges && c.key == key;
        }
      }
    }
  }

  // ----- One key: the times it was charged -----

  /** Start and size of the window that the last charge fell into. */
  datatype Window = Window(started: nat, count: nat)

  ghost predicate Open(w: Window, now: nat) {
    Elapsed(now, w.started) < WINDOW
  }

  ghost function WindowOf(times: seq<nat>): Window
    requires times != []
  {
    var t, before := times[|times| - 1], times[..|times| - 1];
    if before == [] || !Open(WindowOf(before), t) then Window(t, 1)
    else WindowOf(before).(count := WindowOf(before).count + 1)
  }

  /** In time order, and each charge opens a window or finds room in the open one. */
  ghost predicate Admissible(times: seq<nat>, allotment: nat) {
    times == [] ||
    var t, before := times[|times| - 1], times[..|times| - 1];
    && Admissible(before, allotment)
    && (before != [] ==> before[|before| - 1] <= t)
    && (before != [] && Open(WindowOf(before), t) ==> WindowOf(before).count < allotment)
  }

  ghost function CountWithin(times: seq<nat>, from: int, to: int): nat {
    if times == [] then 0
    else CountWithin(times[..|times| - 1], from, to) + (if from <= times[|times| - 1] < to then 1 else 0)
  }

  lemma {:induction false} CountSplits(times: seq<nat>, from: int, mid: int, to: int)
    requires from <= mid <= to
    ensures CountWithin(times, from, to) == CountWithin(times, from, mid) + CountWithin(times, mid, to)
  {
    if times != [] {
      CountSplits(times[..|times| - 1], from, mid, to);
    }
  }

  lemma {:induction false} NoneLater(times: seq<nat>, allotment: nat, from: int, to: int)
    requires Admissible(times, allotment)
    requires times != [] ==> times[|times| - 1] < from
    ensures CountWithin(times, from, to) == 0
  {
    if times != [] {
      NoneLater(times[..|times| - 1], allotment, from, to);
    }
  }

  /**
    Around the current window: it holds `count` charges, all but its first strictly after
    its start, and less than a window's length before it lie at most allotment - 1 charges.
   */
  lemma {:induction false} AroundWindow(times: seq<nat>, allotment: nat, to: int)
    requires Admissible(times, allotment) && times != [] && allotment >= 1
    requires times[|times| - 1] < to
    ensures var w := WindowOf(times);
            && w.started <= times[|times| - 1] < w.started + WINDOW
            && 1 <= w.count <= allotment
            && CountWithin(times, w.started, to) == w.count
            && CountWithin(times, w.started + 1, to) <= w.count - 1
            && forall a :: w.started - WINDOW < a <= w.started ==> CountWithin(times, a, w.started) <= allotment - 1
    decreases |times|
  {
    var t, before := times[|times| - 1], times[..|times| - 1];
    var w := WindowOf(times);
    if before != [] {
      var v := WindowOf(before);
      AroundWindow(before, allotment, t + 1);
      AroundWindow(before, allotment, to);
      if !Open(v, t) {
        NoneLater(before, allotment, t, to);
        NoneLater(before, allotment, t + 1, to);
        forall a | t - WINDOW < a <= t ensures CountWithin(times, a, t) <= allotment - 1 {
          CountSplits(before, v.started + 1, a, t + 1);
          CountSplits(before, a, t, t + 1);
        }
      }
    }
  }

  /**
    The two-window law: any stretch of one window's length holds at most
    2 * allotment - 1 charges, wherever it starts.
   */
  lemma {:induction false} TwoWindowLaw(times: seq<nat>, allotment: nat, from: int)
    requires Admissible(times, allotment) && allotment >= 1
    ensures CountWithin(times, from, from + WINDOW) <= 2 * allotment - 1
  {
    if times != [] {
      var t, before := times[|times| - 1], times[..|times| - 1];
      var to := from + WINDOW;
      TwoWindowLaw(before, allotment, from);
      if from <= t < to {
        var w := WindowOf(times);
        AroundWindow(times, allotment, to);
        if from <= w.started {
          CountSplits(times, from, w.started, to);
        } else {
          CountSplits(times, w.started, from, to);
        }
      }
    }
  }

  ghost function Burst(at: nat, n: nat): seq<nat> {
    seq(n, _ => at)
  }

  /** One charge, the rest of a window's allotment at its last instant, and a whole allotment right after. */
  ghost function TightTimes(allotment: nat): seq<nat>
    requires allotment >= 1
  {
    [0] + Burst(WINDOW - 1, allotment - 1) + Burst(WINDOW, allotment)
  }

  lemma TightTimesAreAdmissible(allotment: nat)
    requires allotment >= 1
    ensures Admissible(TightTimes(allotment), allotment)
    ensures CountWithin(TightTimes(allotment), 1, 1 + WINDOW) == 2 * allotment - 1
  {
    var first := [0 as nat];
    FirstFits(allotment);
    BurstFits(first, WINDOW - 1, allotment - 1, allotment);
    var late := first + Burst(WINDOW - 1, allotment - 1);
    ReopeningFits(late, WINDOW, allotment);
    BurstFits(late + [WINDOW], WINDOW, allotment - 1, allotment);
    assert late + [WINDOW] + Burst(WINDOW, allotment - 1) == late + Burst(WINDOW, allotment);
  }

  lemma FirstFits(allotment: nat)
    requires allotment >= 1
    ensures Admissible([0], allotment) && WindowOf([0]) == Window(0, 1) && CountWithin([0], 1, 1 + WINDOW) == 0
  {
    var first := [0 as nat];
    assert first[..0] == [];
  }

  lemma ReopeningFits(times: seq<nat>, at: nat, allotment: nat)
    requires allotment >= 1 && times != [] && Admissible(times, allotment) && times[|times| - 1] <= at
    requires !Open(WindowOf(times), at) && 1 <= at < 1 + WINDOW
    ensures Admissible(times + [at], allotment) && WindowOf(times + [at]) == Window(at, 1)
    ensures CountWithin(times + [at], 1, 1 + WINDOW) == CountWithin(times, 1, 1 + WINDOW) + 1
  {
    assert (times + [at])[..|times|] == times;
  }

  lemma {:induction false} BurstFits(times: seq<nat>, at: nat, n: nat, allotment: nat)
    requires times != [] && Admissible(times, allotment) && times[|times| - 1] <= at
    requires Open(WindowOf(times), at) && WindowOf(times).count + n <= allotment
    requires 1 <= at < 1 + WINDOW
    ensures var all := times + Burst(at, n);
            && Admissible(all, allotment)
            && all[|all| - 1] <= at
            && WindowOf(all) == WindowOf(times).(count := WindowOf(times).count + n)
            && CountWithin(all, 1, 1 + WINDOW) == CountWithin(times, 1, 1 + WINDOW) + n
    decreases n
  {
    var all := times + Burst(at, n);
    if n == 0 {
      assert all == times;
    } else {
      var before := times + Burst(at, n - 1);
      BurstFits(times, at, n - 1, allotment);
      assert all == before + [at];
      OneMoreFits(before, at, allotment);
    }
  }

  lemma OneMoreFits(times: seq<nat>, at: nat, allotment: nat)
    requires times != [] && Admissible(times, allotment) && times[|times| - 1] <= at
    requires Open(WindowOf(times), at) && WindowOf(times).count < allotment
    requires 1 <= at < 1 + WINDOW
    ensures Admissible(times + [at], allotment)
    ensures WindowOf(times + [at]) == WindowOf(times).(count := WindowOf(times).count + 1)
    ensures CountWithin(times + [at], 1, 1 + WINDOW) == CountWithin(times, 1, 1 + WINDOW) + 1
  {
    assert (times + [at])[..|times|] == times;
  }

  // ----- From runs to charge times -----

  ghost function ChargeTimes(cfg: Config, s: LimiterState, run: seq<Arrival>, key: CounterKey): seq<nat> {
    if run == [] then []
    else
      var last := |run| - 1;
      ChargeTimes(cfg, s, run[..last], key) +
      if Charged(cfg, run[last], VerdictOf(cfg, s, run, last), key) then [run[last].now] else []
  }

  /** The open counter of a key is the window of the times it was charged, if still open. */
  ghost predicate Records(open: Table, times: seq<nat>, key: CounterKey, now: nat) {
    if times != [] && Open(WindowOf(times), now) then
      key in open && open[key].started == WindowOf(times).started && open[key].count == WindowOf(times).count
    else
      key !in open
  }

  ghost predicate Moves(before: Table, after: Table, key: CounterKey, charged: bool, t: nat, allotment: nat) {
    && Spent(after, key) == Spent(before, key) + (if charged then 1 else 0)
    && (key in after <==> key in before || charged)
    && (key in after ==> after[key].started == if key in before then before[key].started else t)
    && (charged && key in before ==> before[key].count < allotment)
  }

  lemma RecordsMove(before: Table, after: Table, times: seq<nat>, key: CounterKey, charged: bool, t: nat,
      allotment: nat)
    requires Admissible(times, allotment) && (times != [] ==> times[|times| - 1] <= t)
    requires Records(before, times, key, t) && Moves(before, after, key, charged, t, allotment)
    ensures var longer := if charged then times + [t] else times;
            Admissible(longer, allotment) && Records(after, longer, key, t)
  {
    if charged {
      assert (times + [t])[..|times|] == times;
    }
  }

  lemma {:induction false} CountersRecordCharges(cfg: Config, requests: U64, run: seq<Arrival>, key: CounterKey,
      now: nat)
    requires Chronological(run)
    requires run != [] ==> run[|run| - 1].now <= now
    ensures var s := LimiterState(map[], requests);
            var times := ChargeTimes(cfg, s, run, key);
            && Admissible(times, Allotment(cfg, key))
            && (times != [] ==> times[|times| - 1] <= now)
            && Records(Live(StateAfter(cfg, s, run).counters, now), times, key, now)
    decreases |run|
  {
    if run != [] {
      var s := LimiterState(map[], requests);
      var last := |run| - 1;
      var a, before := run[last], run[..last];
      var times := ChargeTimes(cfg, s, before, key);
      CountersRecordCharges(cfg, requests, before, key, a.now);
      var mid := StateAfter(cfg, s, before);
      ChargedOnceOrNotAtAll(cfg, mid, a, key);
      LiveTwice(StateAfter(cfg, s, run).counters, a.now, now);
      var after := StateAfter(cfg, s, run);
      var charged := Charged(cfg, a, VerdictOf(cfg, s, run, last), key);
      RecordsMove(Live(mid.counters, a.now), Live(after.counters, a.now), times, key, charged, a.now,
        Allotment(cfg, key));
      assert ChargeTimes(cfg, s, run, key) == if charged then times + [a.now] else times;
    }
  }

  /**
    Over any chronological run from an empty table, an open counter never exceeds its
    allotment, and no stretch of one window's length charges a key 2 * allotment times.
   */
  lemma RunsStayWithinAllotment(cfg: Config, requests: U64, run: seq<Arrival>, key: CounterKey, now: nat, from: int)
    requires Chronological(run)
    requires run != [] ==> run[|run| - 1].now <= now
    ensures var s := LimiterState(map[], requests);
            && Spent(Live(StateAfter(cfg, s, run).counters, now), key) <= Allotment(cfg, key)
            && CountWithin(ChargeTimes(cfg, s, run, key), from, from + WINDOW) <= 2 * Allotment(cfg, key) - 1
  {
    CountersRecordCharges(cfg, requests, run, key, now);
    var times := ChargeTimes(cfg, LimiterState(map[], requests), run, key);
    TwoWindowLaw(times, Allotment(cfg, key), from);
    if times != [] {
      AroundWindow(times, Allotment(cfg, key), now + 1);
    }
  }

  // ----- From charge times to runs -----

  /** The same request at each of these times. */
  ghost function Repeated(request: Request, times: seq<nat>): seq<Arrival> {
    seq(|times|, i requires 0 <= i < |times| => Arrival(request, times[i]))
  }

  /** All counters of one request in the same window, or none. */
  ghost function Together(keys: set<CounterKey>, times: seq<nat>, now: nat): Table
    requires times != [] ==> WindowOf(times).count <= U32_MAX
  {
    if times != [] && Open(WindowOf(times), now) then
      map k | k in keys :: Counter(WindowOf(times).started, WindowOf(times).count)
    else map[]
  }

  ghost predicate Tracked(cfg: Config, request: Request) {
    cfg.enabled && Classify(cfg, request).Some?
  }

  ghost function ChargesOf(cfg: Config, request: Request): seq<Charge>
    requires Tracked(cfg, request)
  {
    var (bucket, limit) := Classify(cfg, request).value;
    Charges(cfg, request, bucket, limit)
  }

  /** Every charge has room for as many requests as the allotment. */
  ghost predicate Roomy(charges: seq<Charge>, allotment: nat) {
    forall c <- charges :: allotment <= Max(c.limit, 1)
  }

  lemma {:induction false} NoneUsed(open: Table, charges: seq<Charge>, now: nat, allotment: nat)
    requires Roomy(charges, allotment)
    requires forall c <- charges :: c.key in open ==> 1 <= open[c.key].count < allotment
    ensures FirstUsed(open, charges, now).None?
  {
    if charges != [] {
      assert charges[0] in charges;
      NoneUsed(open, charges[1..], now, allotment);
    }
  }

  lemma WindowIsWithinAllotment(times: seq<nat>, allotment: nat)
    requires Admissible(times, allotment) && times != [] && allotment >= 1
    ensures 1 <= WindowOf(times).count <= allotment
  {
    AroundWindow(times, allotment, times[|times| - 1] + 1);
  }

  lemma FewKeys(cfg: Config, request: Request)
    requires Tracked(cfg, request)
    ensures |KeysOf(ChargesOf(cfg, request))| < MAX_IDENTITIES
  {
    var charges := ChargesOf(cfg, request);
    var keys := KeysOf(charges);
    var all := if |charges| == 2 then {charges[0].key, charges[1].key}
               else {charges[0].key, charges[1].key, charges[2].key};
    forall k <- keys ensures k in all {
      var i :| 0 <= i < |charges| && charges[i].key == k;
    }
    Sets.SubsetSize(keys, all);
  }

  lemma TogetherGrows(charges: seq<Charge>, times: seq<nat>, t: nat)
    requires times != [] ==> WindowOf(times).count <= U32_MAX && WindowOf(times + [t]).count <= U32_MAX
    requires times != [] && Open(WindowOf(times), t) ==> WindowOf(times).count < U32_MAX
    ensures WindowOf(times + [t]).count <= U32_MAX
    ensures var keys := KeysOf(charges);
            var open := Together(keys, times, t);
            && Live(open, t) == open
            && (forall c <- charges :: Spent(open, c.key) < U32_MAX)
            && BumpAll(open, charges, t) == Together(keys, times + [t], t)
  {
    assert (times + [t])[..|times|] == times;
  }

  lemma TogetherHasRoom(charges: seq<Charge>, times: seq<nat>, t: nat, allotment: nat)
    requires Roomy(charges, allotment) && 1 <= allotment <= U32_MAX
    requires Admissible(times, allotment) && Admissible(times + [t], allotment)
    ensures times != [] ==> WindowOf(times).count <= U32_MAX
    ensures FirstUsed(Together(KeysOf(charges), times, t), charges, t).None?
  {
    assert (times + [t])[..|times|] == times;
    if times != [] {
      WindowIsWithinAllotment(times, allotment);
    }
    NoneUsed(Together(KeysOf(charges), times, t), charges, t, allotment);
  }

  lemma SettlesAllowed(open: Table, charges: seq<Charge>, limit: U32, t: nat)
    requires |open| < MAX_IDENTITIES && FirstUsed(open, charges, t).None?
    ensures forall c <- charges :: Spent(open, c.key) < U32_MAX
    ensures ReferenceSettle(open, charges, limit, t).1.Allowed?
    ensures ReferenceSettle(open, charges, limit, t).0 == BumpAll(open, charges, t)
  {
    UnusedHaveRoom(open, charges, t);
  }

  /** A request none of whose counters is open is let through, whatever its limits are, zero included. */
  lemma FirstRequestIsAllowed(cfg: Config, s: LimiterState, request: Request, now: nat)
    requires Tracked(cfg, request) && |Live(s.counters, now)| < MAX_IDENTITIES
    requires forall c <- ChargesOf(cfg, request) :: c.key !in Live(s.counters, now)
    ensures Step(cfg, s, request, now).1.Allowed?
  {
    var open := Live(s.counters, now);
    NoneUsed(open, ChargesOf(cfg, request), now, 0);
    SettlesAllowed(open, ChargesOf(cfg, request), Classify(cfg, request).value.1, now);
    StepRefinesReference(cfg, s, Arrival(request, now));
  }

  lemma UnusedLetThrough(cfg: Config, request: Request, open: Table, t: nat)
    requires Tracked(cfg, request) && |open| < MAX_IDENTITIES && Live(open, t) == open
    requires FirstUsed(open, ChargesOf(cfg, request), t).None?
    ensures forall c <- ChargesOf(cfg, request) :: Spent(open, c.key) < U32_MAX
    ensures var (after, verdict) := ReferenceStep(cfg, open, Arrival(request, t));
            verdict.Allowed? && after == BumpAll(open, ChargesOf(cfg, request), t)
  {
    SettlesAllowed(open, ChargesOf(cfg, request), Classify(cfg, request).value.1, t);
  }

  lemma CountsFit(times: seq<nat>, t: nat, allotment: nat)
    requires 1 <= allotment <= U32_MAX && Admissible(times, allotment) && Admissible(times + [t], allotment)
    ensures times != [] ==> WindowOf(times).count <= U32_MAX
    ensures times != [] && Open(WindowOf(times), t) ==> WindowOf(times).count < U32_MAX
    ensures WindowOf(times + [t]).count <= U32_MAX
  {
    assert (times + [t])[..|times|] == times;
    if times != [] {
      WindowIsWithinAllotment(times, allotment);
    }
    WindowIsWithinAllotment(times + [t], allotment);
  }

  lemma FewTogether(cfg: Config, request: Request, times: seq<nat>, t: nat)
    requires Tracked(cfg, request) && (times != [] ==> WindowOf(times).count <= U32_MAX)
    ensures |Together(KeysOf(ChargesOf(cfg, request)), times, t)| < MAX_IDENTITIES
  {
    var open := Together(KeysOf(ChargesOf(cfg, request)), times, t);
    FewKeys(cfg, request);
    Sets.SubsetSize(open.Keys, KeysOf(ChargesOf(cfg, request)));
    assert |open| == |open.Keys|;
  }

  /** One more of the same request, at a time that its allotment admits, is let through. */
  lemma OneMoreIsAllowed(cfg: Config, request: Request, times: seq<nat>, t: nat, allotment: nat)
    requires Tracked(cfg, request) && Roomy(ChargesOf(cfg, request), allotment) && 1 <= allotment <= U32_MAX
    requires Admissible(times, allotment) && Admissible(times + [t], allotment)
    ensures times != [] ==> WindowOf(times).count <= U32_MAX
    ensures WindowOf(times + [t]).count <= U32_MAX
    ensures var keys := KeysOf(ChargesOf(cfg, request));
            var (after, verdict) := ReferenceStep(cfg, Together(keys, times, t), Arrival(request, t));
            verdict.Allowed? && after == Together(keys, times + [t], t)
  {
    CountsFit(times, t, allotment);
    FewTogether(cfg, request, times, t);
    TogetherHasRoom(ChargesOf(cfg, request), times, t, allotment);
    TogetherGrows(ChargesOf(cfg, request), times, t);
    UnusedLetThrough(cfg, request, Together(KeysOf(ChargesOf(cfg, request)), times, t), t);
  }

  lemma TogetherLater(keys: set<CounterKey>, times: seq<nat>, t: nat, now: nat)
    requires times != [] && WindowOf(times).count <= U32_MAX && t <= now
    ensures Live(Together(keys, times, t), now) == Together(keys, times, now)
  {
  }

  lemma StepForgets(cfg: Config, table: Table, a: Arrival)
    ensures ReferenceStep(cfg, table, a) == ReferenceStep(cfg, Live(table, a.now), a)
  {
    LiveTwice(table, a.now, a.now);
  }

  lemma RunGrows(cfg: Config, run: seq<Arrival>, a: Arrival)
    ensures var (after, verdict) := ReferenceStep(cfg, ReferenceAfter(cfg, map[], run), a);
            && ReferenceAfter(cfg, map[], run + [a]) == after
            && ReferenceVerdictOf(cfg, map[], run + [a], |run|) == verdict
    ensures forall i | 0 <= i < |run| ::
              ReferenceVerdictOf(cfg, map[], run + [a], i) == ReferenceVerdictOf(cfg, map[], run, i)
  {
    assert (run + [a])[..|run|] == run;
    forall i | 0 <= i < |run| ensures (run + [a])[..i] == run[..i] {
    }
  }

  ghost predicate AllAllowed(cfg: Config, run: seq<Arrival>) {
    forall i | 0 <= i < |run| :: ReferenceVerdictOf(cfg, map[], run, i).Allowed?
  }

  lemma {:induction false} AdmissibleRunsAreAllowed(cfg: Config, request: Request, times: seq<nat>, now: nat,
      allotment: nat)
    requires Tracked(cfg, request) && Roomy(ChargesOf(cfg, request), allotment) && 1 <= allotment <= U32_MAX
    requires Admissible(times, allotment) && (times != [] ==> times[|times| - 1] <= now)
    ensures times != [] ==> WindowOf(times).count <= U32_MAX
    ensures Live(ReferenceAfter(cfg, map[], Repeated(request, times)), now)
         == Together(KeysOf(ChargesOf(cfg, request)), times, now)
    ensures AllAllowed(cfg, Repeated(request, times))
    decreases |times|
  {
    if times != [] {
      var before, t := times[..|times| - 1], times[|times| - 1];
      var run, keys := Repeated(request, before), KeysOf(ChargesOf(cfg, request));
      assert times == before + [t];
      assert Repeated(request, times) == run + [Arrival(request, t)];
      AdmissibleRunsAreAllowed(cfg, request, before, t, allotment);
      OneMoreIsAllowed(cfg, request, before, t, allotment);
      StepForgets(cfg, ReferenceAfter(cfg, map[], run), Arrival(request, t));
      RunGrows(cfg, run, Arrival(request, t));
      TogetherLater(keys, times, t, now);
    }
  }

  lemma {:induction false} AdmissibleIsOrdered(times: seq<nat>, allotment: nat)
    requires Admissible(times, allotment)
    ensures forall i, j :: 0 <= i < j < |times| ==> times[i] <= times[j]
  {
    if times != [] {
      var before, t := times[..|times| - 1], times[|times| - 1];
      AdmissibleIsOrdered(before, allotment);
      forall i, j | 0 <= i < j < |times| ensures times[i] <= times[j] {
        assert times[i] == before[i];
        if j < |before| {
          assert before[i] <= before[j];
        } else {
          assert i == |before| - 1 || before[i] <= before[|before| - 1];
          assert before[|before| - 1] <= t;
        }
      }
    }
  }

  lemma SameVerdictEarlier(cfg: Config, s: LimiterState, run: seq<Arrival>, n: nat, i: nat)
    requires i < n <= |run|
    ensures VerdictOf(cfg, s, run[..n], i) == VerdictOf(cfg, s, run, i)
  {
    assert run[..n][..i] == run[..i] && run[..n][i] == run[i];
  }

  lemma OneMoreIsCharged(cfg: Config, s: LimiterState, request: Request, before: seq<nat>, t: nat, key: CounterKey)
    requires Tracked(cfg, request) && key in KeysOf(ChargesOf(cfg, request))
    requires VerdictOf(cfg, s, Repeated(request, before + [t]), |before|).Allowed?
    ensures ChargeTimes(cfg, s, Repeated(request, before + [t]), key)
         == ChargeTimes(cfg, s, Repeated(request, before), key) + [t]
  {
    var run := Repeated(request, before + [t]);
    assert run[..|before|] == Repeated(request, before);
    assert Charged(cfg, run[|before|], VerdictOf(cfg, s, run, |before|), key);
  }

  lemma SameVerdictsEarlier(cfg: Config, s: LimiterState, request: Request, before: seq<nat>, t: nat)
    ensures forall i | 0 <= i < |before| ::
              VerdictOf(cfg, s, Repeated(request, before), i) == VerdictOf(cfg, s, Repeated(request, before + [t]), i)
  {
    var run := Repeated(request, before + [t]);
    assert run[..|before|] == Repeated(request, before);
    forall i | 0 <= i < |before| ensures VerdictOf(cfg, s, run[..|before|], i) == VerdictOf(cfg, s, run, i) {
      SameVerdictEarlier(cfg, s, run, |before|, i);
    }
  }

  lemma {:induction false} AllowedRunsCharge(cfg: Config, s: LimiterState, request: Request, times: seq<nat>,
      key: CounterKey)
    requires Tracked(cfg, request) && key in KeysOf(ChargesOf(cfg, request))
    requires forall i | 0 <= i < |times| :: VerdictOf(cfg, s, Repeated(request, times), i).Allowed?
    ensures ChargeTimes(cfg, s, Repeated(request, times), key) == times
    decreases |times|
  {
    if times != [] {
      var before, t := times[..|times| - 1], times[|times| - 1];
      assert times == before + [t];
      SameVerdictsEarlier(cfg, s, request, before, t);
      AllowedRunsCharge(cfg, s, request, before, key);
      OneMoreIsCharged(cfg, s, request, before, t, key);
    }
  }

  /**
    The other way round: whatever times an allotment admits, the limiter lets the same request
    through at all of them and charges each of its counters at each of them.
   */
  lemma AdmissibleTimesAreCharged(cfg: Config, requests: U64, request: Request, times: seq<nat>, key: CounterKey,
      allotment: nat)
    requires Tracked(cfg, request) && Roomy(ChargesOf(cfg, request), allotment) && 1 <= allotment <= U32_MAX
    requires key in KeysOf(ChargesOf(cfg, request)) && Admissible(times, allotment)
    ensures Chronological(Repeated(request, times))
    ensures ChargeTimes(cfg, LimiterState(map[], requests), Repeated(request, times), key) == times
  {
    var s, run := LimiterState(map[], requests), Repeated(request, times);
    AdmissibleIsOrdered(times, allotment);
    AdmissibleRunsAreAllowed(cfg, request, times, if times == [] then 0 else times[|times| - 1], allotment);
    forall i | 0 <= i < |times| ensures VerdictOf(cfg, s, run, i).Allowed? {
      LazyPurgeIsUnobservable(cfg, s, run, i);
      assert ReferenceVerdictOf(cfg, map[], run, i).Allowed?;
    }
    AllowedRunsCharge(cfg, s, request, times, key);
  }

  /**
    The two-window law is tight: a run of one request charges its counters 2 * limit - 1 times
    within one stretch of a window's length, if the other limits leave room for it.
   */
  lemma TwoWindowLawIsTight(cfg: Config, requests: U64, request: Request, key: CounterKey)
    requires Tracked(cfg, request) && key in KeysOf(ChargesOf(cfg, request))
    requires Roomy(ChargesOf(cfg, request), Allotment(cfg, key))
    ensures var run := Repeated(request, TightTimes(Allotment(cfg, key)));
            var times := ChargeTimes(cfg, LimiterState(map[], requests), run, key);
            && Chronological(run)
            && CountWithin(times, 1, 1 + WINDOW) == 2 * Allotment(cfg, key) - 1
  {
    var allotment := Allotment(cfg, key);
    TightTimesAreAdmissible(allotment);
    AdmissibleTimesAreCharged(cfg, requests, request, TightTimes(allotment), key, allotment);
  }

  // ----- The retry hint -----

  /**
    Waiting the advertised whole seconds reopens the counter exactly when nothing was
    rounded away; otherwise the hint is short, by less than a second.
   */
  lemma RetryHintIsEnoughIff(started: nat, now: nat)
    requires started <= now && Elapsed(now, started) < WINDOW
    ensures var left := WINDOW - Elapsed(now, started);
            var wait := RetryAfter(started, now) * NANOS_PER_SECOND;
            && (Elapsed(now + wait, started) >= WINDOW <==> left % NANOS_PER_SECOND == 0 || left < NANOS_PER_SECOND)
            && Elapsed(now + wait + NANOS_PER_SECOND, started) >= WINDOW
  {
    var left := WINDOW - Elapsed(now, started);
    assert left == left / NANOS_PER_SECOND * NANOS_PER_SECOND + left % NANOS_PER_SECOND;
  }
}
