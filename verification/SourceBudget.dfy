/**
  Request budgeting towards the Steam sources: a token bucket on injected milliseconds and
  a per-day call budget.
 */
module SourceBudget {
  import opened Outcomes
  import opened MachineInts
  import opened Reals

  /** f64::EPSILON, 2^-52: the tolerance of the acquire test. */
  const EPSILON := 1.0 / 4503599627370496.0

  datatype Bucket = Bucket(capacity: real, tokens: real, refillPerMs: real, lastMs: U64)

  function Ceiling(x: real): int {
    if x.Floor as real == x then x.Floor else x.Floor + 1
  }

  /** `as u64` saturates. */
  function ToU64(n: int): U64 {
    if n < 0 then 0 else if n > U64_MAX then U64_MAX else n
  }

  function Gain(elapsedMs: int, refillPerMs: real): real {
    elapsedMs as real * refillPerMs
  }

  function Refilled(b: Bucket, nowMs: U64): Bucket {
    if nowMs <= b.lastMs then b
    else b.(tokens := MinReal(b.tokens + Gain(nowMs - b.lastMs, b.refillPerMs), b.capacity), lastMs := nowMs)
  }

  function Acquired(b: Bucket, nowMs: U64, cost: real): (Bucket, Result<(), U64>)
    requires b.refillPerMs > 0.0
  {
    var r := Refilled(b, nowMs);
    if r.tokens + EPSILON >= cost then (r.(tokens := r.tokens - cost), Ok(()))
    else
      var waitMs := ToU64(Ceiling((cost - r.tokens) / r.refillPerMs));
      (r, Err(if waitMs < 1 then 1 else waitMs))
  }

  class TokenBucket {
    var capacity: real
    var tokens: real
    var refillPerMs: real
    var lastMs: U64

    ghost function View(): Bucket
      reads this
    {
      Bucket(capacity, tokens, refillPerMs, lastMs)
    }

    constructor (capacity: U32, refillPerSecond: real, nowMs: U64)
      requires capacity > 0 && refillPerSecond > 0.0
      ensures View() == Bucket(capacity as real, capacity as real, refillPerSecond / 1000.0, nowMs)
    {
      this.capacity, tokens := capacity as real, capacity as real;
      refillPerMs, lastMs := refillPerSecond / 1000.0, nowMs;
    }

    method Refill(nowMs: U64)
      modifies this
      ensures View() == Refilled(old(View()), nowMs)
    {
      if nowMs <= lastMs {
        return;
      }
      tokens := MinReal(tokens + Gain(nowMs - lastMs, refillPerMs), capacity);
      lastMs := nowMs;
    }

    method TryAcquire(nowMs: U64, cost: real) returns (r: Result<(), U64>)
      requires refillPerMs > 0.0
      modifies this
      ensures (View(), r) == Acquired(old(View()), nowMs, cost)
    {
      Refill(nowMs);
      if tokens + EPSILON >= cost {
        tokens := tokens - cost;
        return Ok(());
      }
      var missing := cost - tokens;
      var waitMs := ToU64(Ceiling(missing / refillPerMs));
      r := Err(if waitMs < 1 then 1 else waitMs);
    }
  }

  datatype Day = Day(limit: U64, used: U64, dayKey: U32)

  function Consumed(d: Day, dayKey: U32, cost: U64): (Day, Result<(), U64>) {
    var today := if dayKey != d.dayKey then d.(dayKey := dayKey, used := 0) else d;
    if ToU64(today.used + cost) > today.limit then (today, Err(SaturatingSub(today.limit, today.used)))
    else (today.(used := (today.used + cost) % U64_RANGE), Ok(()))
  }

  class DailyBudget {
    const limit: U64
    var used: U64
    var dayKey: U32

    ghost function View(): Day
      reads this
    {
      Day(limit, used, dayKey)
    }

    constructor (limit: U64, dayKey: U32)
      ensures View() == Day(limit, 0, dayKey)
    {
      this.limit, used, this.dayKey := limit, 0, dayKey;
    }

    method TryConsume(dayKey: U32, cost: U64) returns (r: Result<(), U64>)
      modifies this
      ensures (View(), r) == Consumed(old(View()), dayKey, cost)
    {
      if dayKey != this.dayKey {
        this.dayKey := dayKey;
        used := 0;
      }
      if ToU64(used + cost) > limit {
        return Err(SaturatingSub(limit, used));
      }
      used := (used + cost) % U64_RANGE;
      r := Ok(());
    }
  }
}

/** What the source budgets promise. */
module SourceBudgetLaws {
  import opened Outcomes
  import opened MachineInts
  import opened Reals
  import opened SourceBudget
  import opened KeyOrder

  /** A bucket as the constructor makes it and the methods keep it. */
  ghost predicate Sound(b: Bucket) {
    b.refillPerMs > 0.0 && b.capacity > 0.0 && -EPSILON <= b.tokens <= b.capacity
  }

  ghost function Earned(b: Bucket, from: int, to: int): real {
    Gain(to - from, b.refillPerMs)
  }

  lemma EarnedAdds(b: Bucket, from: int, mid: int, to: int)
    ensures Earned(b, from, to) == Earned(b, from, mid) + Earned(b, mid, to)
    ensures b.refillPerMs > 0.0 && from <= mid ==> Earned(b, from, mid) >= 0.0
    ensures b.refillPerMs > 0.0 && mid <= to ==> Earned(b, mid, to) >= 0.0
  {
  }

  /** Refilling in steps is refilling once. */
  lemma RefillComposes(b: Bucket, t: U64, u: U64)
    requires Sound(b) && t <= u
    ensures Refilled(Refilled(b, t), u) == Refilled(b, u)
  {
    EarnedAdds(b, b.lastMs, t, u);
  }

  /** The balance after waiting k more milliseconds. */
  ghost function Balance(b: Bucket, k: nat): real {
    MinReal(b.tokens + Gain(k, b.refillPerMs), b.capacity)
  }

  lemma CeilingIsTight(x: real, k: int)
    ensures k < Ceiling(x) <==> (k as real) < x
  {
  }

  lemma EnoughIff(missing: real, rate: real, k: int)
    requires rate > 0.0
    ensures k < Ceiling(missing / rate) <==> Gain(k, rate) < missing
  {
    var q := missing / rate;
    CeilingIsTight(q, k);
    assert q * rate == missing;
    if (k as real) < q {
      Scale(k as real, q, rate);
    } else {
      Scale(q, k as real, rate);
    }
  }

  lemma Scale(x: real, y: real, rate: real)
    requires rate > 0.0 && x <= y
    ensures x * rate <= y * rate
    ensures x < y ==> x * rate < y * rate
  {
    if x < y {
      assert (y - x) * rate > 0.0;
    }
  }

  /**
    The advertised wait is sound and tight. With nothing taken in between, a retry after
    exactly that wait succeeds; after any shorter whole number of milliseconds the balance
    is still below the cost, and the retry can succeed only inside the EPSILON tolerance.
   */
  lemma WaitIsSoundAndTight(b: Bucket, nowMs: U64, cost: real, k: nat)
    requires Sound(b) && b.lastMs <= nowMs && 0.0 <= cost <= b.capacity
    requires Acquired(b, nowMs, cost).1.Err?
    requires var wait := Acquired(b, nowMs, cost).1.error;
             wait < U64_MAX && k <= wait && nowMs + wait <= U64_MAX
    ensures var (after, answer) := Acquired(b, nowMs, cost);
            var retry := Acquired(after, nowMs + k, cost).1;
            if k == answer.error then retry.Ok?
            else Balance(after, k) < cost && (retry.Ok? <==> cost - Balance(after, k) <= EPSILON)
  {
    var r := Refilled(b, nowMs);
    assert r.lastMs == nowMs;
    WaitBalance(r, cost, k);
    if k > 0 {
      assert Refilled(r, nowMs + k).tokens == Balance(r, k);
    } else {
      NoGain(r);
    }
  }

  lemma NoGain(r: Bucket)
    ensures r.tokens <= r.capacity ==> Balance(r, 0) == r.tokens
  {
    assert Gain(0, r.refillPerMs) == 0.0;
  }

  lemma WaitBalance(r: Bucket, cost: real, k: nat)
    requires r.refillPerMs > 0.0 && r.tokens + EPSILON < cost <= r.capacity
    ensures var wait := Ceiling((cost - r.tokens) / r.refillPerMs);
            && wait >= 1
            && (k < wait <==> Balance(r, k) < cost)
  {
    EnoughIff(cost - r.tokens, r.refillPerMs, 0);
    EnoughIff(cost - r.tokens, r.refillPerMs, k);
    assert Gain(0, r.refillPerMs) == 0.0;
  }

  // ----- The rate law -----

  datatype Ask = Ask(nowMs: U64, cost: real)

  ghost predicate Clocked(run: seq<Ask>, from: int, to: int) {
    if run == [] then from <= to
    else from <= run[0].nowMs && run[0].cost >= 0.0 && Clocked(run[1..], run[0].nowMs, to)
  }

  ghost function After(b: Bucket, run: seq<Ask>): Bucket
    requires b.refillPerMs > 0.0
    decreases |run|
  {
    if run == [] then b else After(Acquired(b, run[0].nowMs, run[0].cost).0, run[1..])
  }

  ghost function TotalGranted(b: Bucket, run: seq<Ask>): real
    requires b.refillPerMs > 0.0
    decreases |run|
  {
    if run == [] then 0.0
    else
      var (after, answer) := Acquired(b, run[0].nowMs, run[0].cost);
      (if answer.Ok? then run[0].cost else 0.0) + TotalGranted(after, run[1..])
  }

  lemma StepIsSound(b: Bucket, a: Ask)
    requires Sound(b) && a.cost >= 0.0
    ensures Sound(Acquired(b, a.nowMs, a.cost).0)
  {
    EarnedAdds(b, b.lastMs, b.lastMs, a.nowMs);
  }

  /** Tokens at `now` if nothing is taken. */
  ghost function Potential(b: Bucket, now: int): real {
    MinReal(b.tokens + Earned(b, b.lastMs, now), b.capacity)
  }

  lemma StepSpends(b: Bucket, a: Ask, from: int)
    requires Sound(b) && a.cost >= 0.0 && b.lastMs <= from <= a.nowMs
    ensures var (after, answer) := Acquired(b, a.nowMs, a.cost);
            && after.lastMs == a.nowMs && after.refillPerMs == b.refillPerMs && after.capacity == b.capacity
            && Potential(after, a.nowMs) + (if answer.Ok? then a.cost else 0.0)
                 <= Potential(b, from) + Earned(b, from, a.nowMs)
  {
    EarnedAdds(b, b.lastMs, from, a.nowMs);
  }

  lemma {:induction false} GrantedWithinPotential(b: Bucket, run: seq<Ask>, from: int, to: int)
    requires Sound(b) && b.lastMs <= from && Clocked(run, from, to)
    ensures TotalGranted(b, run) <= Potential(b, from) + Earned(b, from, to) + EPSILON
    decreases |run|
  {
    EarnedAdds(b, b.lastMs, from, to);
    if run != [] {
      var a := run[0];
      var after := Acquired(b, a.nowMs, a.cost).0;
      StepIsSound(b, a);
      StepSpends(b, a, from);
      GrantedWithinPotential(after, run[1..], a.nowMs, to);
      EarnedAdds(b, from, a.nowMs, to);
    }
  }

  lemma {:induction false} RunIsSound(b: Bucket, run: seq<Ask>, from: int, to: int)
    requires Sound(b) && b.lastMs <= from && Clocked(run, from, to)
    ensures Sound(After(b, run)) && After(b, run).lastMs <= to
    ensures After(b, run).capacity == b.capacity && After(b, run).refillPerMs == b.refillPerMs
    decreases |run|
  {
    if run != [] {
      StepIsSound(b, run[0]);
      RunIsSound(Acquired(b, run[0].nowMs, run[0].cost).0, run[1..], run[0].nowMs, to);
    }
  }

  /**
    In any stretch [from, to] of any run, the granted costs add up to at most the capacity
    plus what the stretch refills, plus one tolerance.
   */
  lemma SourceRateLaw(b: Bucket, early: seq<Ask>, within: seq<Ask>, start: int, from: int, to: int)
    requires Sound(b) && b.lastMs <= start
    requires Clocked(early, start, from) && Clocked(within, from, to)
    ensures After(b, early).refillPerMs > 0.0
    ensures TotalGranted(After(b, early), within) <= b.capacity + Earned(b, from, to) + EPSILON
  {
    RunIsSound(b, early, start, from);
    GrantedWithinPotential(After(b, early), within, from, to);
  }

  // ----- The daily budget -----

  datatype Call = Call(dayKey: U32, cost: U64)

  ghost function GrantedOn(d: Day, run: seq<Call>, dayKey: U32): nat
    decreases |run|
  {
    if run == [] then 0
    else
      var (after, answer) := Consumed(d, run[0].dayKey, run[0].cost);
      (if answer.Ok? && run[0].dayKey == dayKey then run[0].cost else 0) + GrantedOn(after, run[1..], dayKey)
  }

  function KeysOf(run: seq<Call>): seq<U32> {
    seq(|run|, i requires 0 <= i < |run| => run[i].dayKey)
  }

  lemma {:induction false} UnusedDayGrantsNothing(d: Day, run: seq<Call>, dayKey: U32)
    requires dayKey !in KeysOf(run)
    ensures GrantedOn(d, run, dayKey) == 0
    decreases |run|
  {
    if run != [] {
      assert KeysOf(run)[0] == run[0].dayKey;
      assert KeysOf(run[1..]) == KeysOf(run)[1..];
      UnusedDayGrantsNothing(Consumed(d, run[0].dayKey, run[0].cost).0, run[1..], dayKey);
    }
  }

  lemma RestNeverReturns(today: U32, keys: seq<U32>)
    requires keys != [] && NeverReturns([today] + keys)
    ensures NeverReturns(keys)
    ensures keys[0] != today ==> today !in keys
  {
    var all := [today] + keys;
    forall i, j, k | 0 <= i < j < k < |keys| && keys[i] == keys[k] ensures keys[j] == keys[i] {
      assert all[i + 1] == all[k + 1] && all[j + 1] == keys[j];
    }
    if today in keys {
      var k :| 0 <= k < |keys| && keys[k] == today;
      assert all[0] == all[k + 1] && all[1] == keys[0];
    }
  }

  /** While no day key recurs after another, no day is granted more than the limit. */
  lemma {:induction false} DailyLimitHolds(d: Day, run: seq<Call>, dayKey: U32)
    requires d.used <= d.limit < U64_MAX
    requires NeverReturns([d.dayKey] + KeysOf(run))
    ensures GrantedOn(d, run, dayKey) <= if dayKey == d.dayKey then d.limit - d.used else d.limit
    decreases |run|
  {
    if run != [] {
      var keys := KeysOf(run);
      var after := Consumed(d, run[0].dayKey, run[0].cost).0;
      RestNeverReturns(d.dayKey, keys);
      assert keys[0] == run[0].dayKey && [after.dayKey] + KeysOf(run[1..]) == keys;
      DailyLimitHolds(after, run[1..], dayKey);
      if dayKey == d.dayKey != run[0].dayKey {
        UnusedDayGrantsNothing(d, run, dayKey);
      }
    }
  }

  /** A free budget grants a second full limit once it is asked on `day` again, after another day or unspent. */
  lemma {:induction false} GrantsAgain(d: Day, run: seq<Call>, k: nat, day: U32)
    requires d.used <= d.limit < U64_MAX && k < |run| && run[k] == Call(day, d.limit)
    requires forall i | 0 <= i < |run| && i != k :: run[i].cost == 0
    requires d.used == 0 || (d.dayKey == day && exists j | 0 <= j < k :: run[j].dayKey != day)
    ensures GrantedOn(d, run, day) >= d.limit
    decreases |run|
  {
    if k > 0 {
      var after := Consumed(d, run[0].dayKey, 0).0;
      if d.used != 0 && run[0].dayKey == day {
        var j :| 0 <= j < k && run[j].dayKey != day;
        assert run[1..][j - 1].dayKey != day;
      }
      GrantsAgain(after, run[1..], k - 1, day);
    }
  }

  /** The limit asked for at i and at k, and nothing otherwise. */
  function TwiceTheLimit(keys: seq<U32>, limit: U64, i: nat, k: nat): seq<Call> {
    seq(|keys|, n requires 0 <= n < |keys| => Call(keys[n], if n == i || n == k then limit else 0))
  }

  lemma {:induction false} ReturningGrantsTwice(d: Day, keys: seq<U32>, i: nat, j: nat, k: nat)
    requires d.used == 0 && d.limit < U64_MAX
    requires i < j < k < |keys| && keys[i] == keys[k] != keys[j]
    ensures GrantedOn(d, TwiceTheLimit(keys, d.limit, i, k), keys[i]) >= 2 * d.limit
    decreases i
  {
    var run := TwiceTheLimit(keys, d.limit, i, k);
    var after := Consumed(d, keys[0], run[0].cost).0;
    if i == 0 {
      assert run[1..][j - 1].dayKey != keys[0];
      GrantsAgain(after, run[1..], k - 1, keys[0]);
    } else {
      ReturningGrantsTwice(after, keys[1..], i - 1, j - 1, k - 1);
      assert run[1..] == TwiceTheLimit(keys[1..], d.limit, i - 1, k - 1);
    }
  }

  /** Whatever is asked for over these days, no day is granted more than the limit. */
  ghost predicate DaysAreSafe(d: Day, keys: seq<U32>) {
    forall run: seq<Call>, day: U32 :: KeysOf(run) == keys ==> GrantedOn(d, run, day) <= d.limit
  }

  /** A free budget keeps every day to its limit exactly when no day key recurs after another. */
  lemma DailyLimitHoldsIff(d: Day, keys: seq<U32>)
    requires d.used == 0 < d.limit < U64_MAX
    ensures DaysAreSafe(d, keys) <==> NeverReturns(keys)
  {
    if NeverReturns(keys) {
      forall run: seq<Call>, day: U32 | KeysOf(run) == keys ensures GrantedOn(d, run, day) <= d.limit {
        if run != [] {
          var begun := d.(dayKey := run[0].dayKey);
          OpeningNeverReturns(keys);
          assert keys[0] == run[0].dayKey;
          DailyLimitHolds(begun, run, day);
          assert Consumed(begun, run[0].dayKey, run[0].cost) == Consumed(d, run[0].dayKey, run[0].cost);
        }
      }
    } else {
      var i, j, k :| 0 <= i < j < k < |keys| && keys[i] == keys[k] != keys[j];
      ReturningGrantsTwice(d, keys, i, j, k);
      assert KeysOf(TwiceTheLimit(keys, d.limit, i, k)) == keys;
    }
  }

  lemma OpeningNeverReturns(keys: seq<U32>)
    requires keys != [] && NeverReturns(keys)
    ensures NeverReturns([keys[0]] + keys)
  {
    var all := [keys[0]] + keys;
    forall i, j, k | 0 <= i < j < k < |all| && all[i] == all[k] ensures all[j] == all[i] {
      if i == 0 && j > 1 {
        assert keys[0] == keys[k - 1];
      }
    }
  }

  /** For instance: a day, another day, and the first day again is granted twice the limit. */
  lemma ReturningToADayRefillsIt(d: Day, day: U32, other: U32)
    requires day != other && d.used == 0 && d.limit < U64_MAX && d.dayKey == day
    ensures var run := [Call(day, d.limit), Call(other, 0), Call(day, d.limit)];
            GrantedOn(d, run, day) == 2 * d.limit
  {
    var run := [Call(day, d.limit), Call(other, 0), Call(day, d.limit)];
    var spent := Day(d.limit, d.limit, day);
    var away := Day(d.limit, 0, other);
    assert Consumed(spent, other, 0).0 == away && Consumed(away, day, d.limit).0 == spent;
    assert run[2..][1..] == [] && run[1..][1..] == run[2..];
    assert GrantedOn(away, run[2..], day) == d.limit;
    assert GrantedOn(spent, run[1..], day) == d.limit;
  }
}
