/** The router's call budget over whole runs. */
module RouterBudgetLaws {
  import opened MachineInts
  import opened TaskRouting
  import opened KeyOrder

  function MinuteOf(wall: U64): U64 {
    wall / 1000 / 60
  }

  function DayOf(wall: U64): U64 {
    wall / 1000 / 86_400
  }

  /** When a charge happens, in wall-clock minutes and days. */
  datatype Tick = Tick(minute: U64, day: U64)

  function TicksOf(walls: seq<U64>): seq<Tick> {
    seq(|walls|, i requires 0 <= i < |walls| => Tick(MinuteOf(walls[i]), DayOf(walls[i])))
  }

  function Minutes(ticks: seq<Tick>): seq<U64> {
    seq(|ticks|, i requires 0 <= i < |ticks| => ticks[i].minute)
  }

  function Days(ticks: seq<Tick>): seq<U64> {
    seq(|ticks|, i requires 0 <= i < |ticks| => ticks[i].day)
  }

  const UNUSED := Budget(0, 0, 0, 0)

  /** The budget after these charges, from a new router. */
  function Spent(policy: RouterPolicy, ticks: seq<Tick>): Budget {
    if ticks == [] then UNUSED
    else
      var last := ticks[|ticks| - 1];
      ChargeAt(policy, Spent(policy, ticks[..|ticks| - 1]), last.minute, last.day).0
  }

  predicate LastGranted(policy: RouterPolicy, ticks: seq<Tick>)
    requires ticks != []
  {
    var last := ticks[|ticks| - 1];
    ChargeAt(policy, Spent(policy, ticks[..|ticks| - 1]), last.minute, last.day).1
  }

  /** How many charges were granted in a minute. */
  function GrantedInMinute(policy: RouterPolicy, ticks: seq<Tick>, minute: U64): nat {
    if ticks == [] then 0
    else
      GrantedInMinute(policy, ticks[..|ticks| - 1], minute)
      + if ticks[|ticks| - 1].minute == minute && LastGranted(policy, ticks) then 1 else 0
  }

  function GrantedOnDay(policy: RouterPolicy, ticks: seq<Tick>, day: U64): nat {
    if ticks == [] then 0
    else
      GrantedOnDay(policy, ticks[..|ticks| - 1], day)
      + if ticks[|ticks| - 1].day == day && LastGranted(policy, ticks) then 1 else 0
  }

  lemma KeysGrow(before: seq<Tick>, last: Tick)
    ensures Minutes(before + [last]) == Minutes(before) + [last.minute]
    ensures Days(before + [last]) == Days(before) + [last.day]
  {
  }

  lemma OneMoreKey(keys: seq<U64>, last: U64, x: U64)
    ensures Count(keys + [last], x) == Count(keys, x) + if last == x then 1 else 0
    ensures Turns(keys + [last], x) ==
              Turns(keys, x) + if last == x && (keys == [] || keys[|keys| - 1] != x) then 1 else 0
  {
    assert (keys + [last])[..|keys|] == keys;
  }

  function UsedInMinute(b: Budget, minute: U64): U32 {
    if b.minuteWindow == minute then b.minuteCount else 0
  }

  function UsedOnDay(b: Budget, day: U64): U32 {
    if b.dayWindow == day then b.dayCount else 0
  }

  lemma OneMoreTick(policy: RouterPolicy, before: seq<Tick>, t: Tick, minute: U64)
    ensures var (after, ok) := ChargeAt(policy, Spent(policy, before), t.minute, t.day);
            && Spent(policy, before + [t]) == after
            && GrantedInMinute(policy, before + [t], minute)
               == GrantedInMinute(policy, before, minute) + if t.minute == minute && ok then 1 else 0
  {
    assert (before + [t])[..|before|] == before;
  }

  // ----- Minutes -----

  /** The open minute's count covers what was granted in it, and is covered by its calls. */
  ghost predicate MinuteCovered(policy: RouterPolicy, b: Budget, keys: seq<U64>, minute: U64, granted: nat) {
    && (if keys == [] then b.minuteCount == 0 else b.minuteWindow == keys[|keys| - 1])
    && b.minuteCount <= Count(keys, b.minuteWindow)
    && granted <= policy.minuteBudget
    && (minute == b.minuteWindow ==> granted <= b.minuteCount)
    && (granted > 0 ==> minute in keys)
  }

  lemma MinuteStep(policy: RouterPolicy, b: Budget, t: Tick, keys: seq<U64>, minute: U64, granted: nat)
    requires MinuteCovered(policy, b, keys, minute, granted)
    requires NeverReturns(keys + [t.minute]) && Count(keys + [t.minute], t.minute) < U32_RANGE
    ensures var (after, ok) := ChargeAt(policy, b, t.minute, t.day);
            MinuteCovered(policy, after, keys + [t.minute], minute, granted + if t.minute == minute && ok then 1 else 0)
  {
    OneMoreKey(keys, t.minute, t.minute);
    PrefixNeverReturns(keys, t.minute);
  }

  /** Fewer calls in each of these windows than the 32-bit counters can hold. */
  ghost predicate Countable(keys: seq<U64>) {
    forall x :: Count(keys, x) < U32_RANGE
  }

  lemma CountableBefore(keys: seq<U64>, last: U64)
    requires Countable(keys + [last])
    ensures Countable(keys)
  {
    forall x ensures Count(keys, x) < U32_RANGE {
      OneMoreKey(keys, last, x);
      assert Count(keys + [last], x) < U32_RANGE;
    }
  }

  lemma {:induction false} MinutesStayCovered(policy: RouterPolicy, ticks: seq<Tick>, minute: U64)
    requires NeverReturns(Minutes(ticks)) && Countable(Minutes(ticks))
    ensures MinuteCovered(policy, Spent(policy, ticks), Minutes(ticks), minute, GrantedInMinute(policy, ticks, minute))
  {
    if ticks != [] {
      var before, last := ticks[..|ticks| - 1], ticks[|ticks| - 1];
      assert ticks == before + [last];
      KeysGrow(before, last);
      PrefixNeverReturns(Minutes(before), last.minute);
      CountableBefore(Minutes(before), last.minute);
      MinutesStayCovered(policy, before, minute);
      MinuteStep(policy, Spent(policy, before), last, Minutes(before), minute, GrantedInMinute(policy, before, minute));
    }
  }

  /** With a budget of one, each turn to a minute is granted a call. */
  lemma {:induction false} EveryTurnIsGranted(policy: RouterPolicy, ticks: seq<Tick>, minute: U64)
    requires policy.minuteBudget == 1 && policy.dailyBudget == U32_MAX
    ensures ticks != [] ==> Spent(policy, ticks).minuteWindow == ticks[|ticks| - 1].minute
    ensures ticks == [] ==> Spent(policy, ticks).minuteCount == 0
    ensures GrantedInMinute(policy, ticks, minute) >= Turns(Minutes(ticks), minute)
  {
    if ticks != [] {
      var before, last := ticks[..|ticks| - 1], ticks[|ticks| - 1];
      assert ticks == before + [last];
      KeysGrow(before, last);
      OneMoreKey(Minutes(before), last.minute, minute);
      EveryTurnIsGranted(policy, before, minute);
    }
  }

  lemma WrapOnce(calls: nat)
    ensures (calls % U32_RANGE + 1) % U32_RANGE == (calls + 1) % U32_RANGE
  {
  }

  lemma {:induction false} NotCountedUnlessUsed(keys: seq<U64>, x: U64)
    ensures Count(keys, x) > 0 <==> x in keys
  {
    if keys != [] {
      NotCountedUnlessUsed(keys[..|keys| - 1], x);
      assert keys == keys[..|keys| - 1] + [keys[|keys| - 1]];
    }
  }

  /** A key that is turned to anew had not been used before, if none recurs. */
  lemma NewTurnIsFirstUse(keys: seq<U64>, last: U64)
    requires NeverReturns(keys + [last]) && (keys == [] || keys[|keys| - 1] != last)
    ensures Count(keys, last) == 0
  {
    NotCountedUnlessUsed(keys, last);
    PrefixNeverReturns(keys, last);
    assert last !in keys;
  }

  /** The calls that a budget of one grants at least: the first, and the one that wraps the counter. */
  function WrapGrants(calls: nat): nat {
    (if calls >= 1 then 1 else 0) + (if calls >= U32_RANGE then 1 else 0)
  }

  lemma OneMoreGrant(calls: nat)
    ensures WrapGrants(calls + 1) <= WrapGrants(calls) + if (calls + 1) % U32_RANGE <= 1 then 1 else 0
  {
  }

  /** The counter holds the calls of the last window, wrapped around. */
  ghost predicate CountsCalls(keys: seq<U64>, window: U64, count: U32) {
    if keys == [] then count == 0
    else window == keys[|keys| - 1] && count == Count(keys, window) % U32_RANGE
  }

  lemma CountsOneMore(keys: seq<U64>, window: U64, count: U32, last: U64)
    requires NeverReturns(keys + [last]) && CountsCalls(keys, window, count)
    ensures var next := ((if window == last then count else 0) + 1) % U32_RANGE;
            next == (Count(keys, last) + 1) % U32_RANGE && CountsCalls(keys + [last], last, next)
  {
    OneMoreKey(keys, last, last);
    WrapOnce(Count(keys, last));
    if keys == [] || keys[|keys| - 1] != last {
      NewTurnIsFirstUse(keys, last);
    }
  }

  /** One more use of `last`: a counter that starts anew with each key grants as promised. */
  lemma OneMoreCounted(keys: seq<U64>, window: U64, count: U32, last: U64, x: U64, granted: nat)
    requires NeverReturns(keys + [last]) && CountsCalls(keys, window, count)
    requires granted >= WrapGrants(Count(keys, x))
    ensures var next := ((if window == last then count else 0) + 1) % U32_RANGE;
            && CountsCalls(keys + [last], last, next)
            && granted + (if last == x && next <= 1 then 1 else 0) >= WrapGrants(Count(keys + [last], x))
  {
    CountsOneMore(keys, window, count, last);
    OneMoreKey(keys, last, x);
    OneMoreGrant(Count(keys, x));
  }

  lemma MinuteCounts(policy: RouterPolicy, b: Budget, t: Tick)
    requires policy.minuteBudget == 1 && policy.dailyBudget == U32_MAX
    ensures var (after, ok) := ChargeAt(policy, b, t.minute, t.day);
            && after.minuteWindow == t.minute
            && after.minuteCount == (UsedInMinute(b, t.minute) + 1) % U32_RANGE
            && ok == (after.minuteCount <= 1)
  {
  }

  lemma {:induction false} WrappedMinuteIsGrantedTwice(policy: RouterPolicy, ticks: seq<Tick>, minute: U64)
    requires policy.minuteBudget == 1 && policy.dailyBudget == U32_MAX && NeverReturns(Minutes(ticks))
    ensures var b := Spent(policy, ticks);
            CountsCalls(Minutes(ticks), b.minuteWindow, b.minuteCount)
    ensures GrantedInMinute(policy, ticks, minute) >= WrapGrants(Count(Minutes(ticks), minute))
  {
    if ticks != [] {
      var before, last := ticks[..|ticks| - 1], ticks[|ticks| - 1];
      var keys, b := Minutes(before), Spent(policy, before);
      assert ticks == before + [last];
      KeysGrow(before, last);
      PrefixNeverReturns(keys, last.minute);
      WrappedMinuteIsGrantedTwice(policy, before, minute);
      OneMoreCounted(keys, b.minuteWindow, b.minuteCount, last.minute, minute, GrantedInMinute(policy, before, minute));
      OneMoreTick(policy, before, last, minute);
      MinuteCounts(policy, b, last);
    }
  }

  ghost predicate MinutesAreSafe(walls: seq<U64>) {
    forall policy, minute :: GrantedInMinute(policy, TicksOf(walls), minute) <= policy.minuteBudget
  }

  /**
    Under every policy no minute is granted more than its budget, exactly when no minute recurs
    after another and none has more calls than its 32-bit counter can hold.
   */
  lemma MinuteBudgetHoldsIff(walls: seq<U64>)
    ensures MinutesAreSafe(walls) <==> NeverReturns(Minutes(TicksOf(walls))) && Countable(Minutes(TicksOf(walls)))
  {
    var ticks, keys := TicksOf(walls), Minutes(TicksOf(walls));
    var policy := RouterPolicy(1, U32_MAX, 0, 0);
    if !NeverReturns(keys) {
      var i, j, k :| 0 <= i < j < k < |keys| && keys[i] == keys[k] != keys[j];
      ReturningIsTurningTwice(keys, i, j, k);
      EveryTurnIsGranted(policy, ticks, keys[i]);
      assert GrantedInMinute(policy, ticks, keys[i]) > policy.minuteBudget;
    } else if !Countable(keys) {
      var minute :| Count(keys, minute) >= U32_RANGE;
      WrappedMinuteIsGrantedTwice(policy, ticks, minute);
      assert GrantedInMinute(policy, ticks, minute) > policy.minuteBudget;
    } else {
      forall any, minute ensures GrantedInMinute(any, ticks, minute) <= any.minuteBudget {
        MinutesStayCovered(any, ticks, minute);
      }
    }
  }

  // ----- Days: only a call that its minute granted opens one -----

  ghost predicate DayCovered(policy: RouterPolicy, b: Budget, keys: seq<U64>, day: U64, granted: nat) {
    && b.dayCount <= Count(keys, b.dayWindow)
    && granted <= policy.dailyBudget
    && (day == b.dayWindow ==> granted <= b.dayCount)
    && (granted > 0 ==> day in keys && (b.dayWindow != day ==> WasLeft(keys, day)))
  }

  /** One charge, `calls` being the earlier calls of its day. */
  lemma DayCharge(policy: RouterPolicy, b: Budget, t: Tick, calls: nat, day: U64, granted: nat)
    requires b.dayWindow == t.day ==> b.dayCount <= calls
    requires calls + 1 < U32_RANGE && granted <= policy.dailyBudget
    requires day == b.dayWindow ==> granted <= b.dayCount
    requires t.day == day != b.dayWindow ==> granted == 0
    ensures var (after, ok) := ChargeAt(policy, b, t.minute, t.day);
            var now := granted + if t.day == day && ok then 1 else 0;
            && now <= policy.dailyBudget
            && (day == after.dayWindow ==> now <= after.dayCount)
            && (if after.dayWindow == t.day then after.dayCount <= calls + 1
                else after.dayWindow == b.dayWindow && after.dayCount == b.dayCount)
  {
  }

  lemma DayStep(policy: RouterPolicy, b: Budget, t: Tick, keys: seq<U64>, day: U64, granted: nat)
    requires DayCovered(policy, b, keys, day, granted)
    requires NeverReturns(keys + [t.day]) && Count(keys + [t.day], t.day) < U32_RANGE
    ensures var (after, ok) := ChargeAt(policy, b, t.minute, t.day);
            DayCovered(policy, after, keys + [t.day], day, granted + if t.day == day && ok then 1 else 0)
  {
    OneMoreKey(keys, t.day, t.day);
    OneMoreKey(keys, t.day, b.dayWindow);
    PrefixNeverReturns(keys, t.day);
    DayCharge(policy, b, t, Count(keys, t.day), day, granted);
    if granted > 0 {
      LeftStays(keys, t.day, day);
    }
  }

  lemma LeftStays(keys: seq<U64>, last: U64, x: U64)
    requires x in keys
    ensures WasLeft(keys, x) || last != x ==> WasLeft(keys + [last], x)
  {
    var all := keys + [last];
    if WasLeft(keys, x) {
      var i, j :| 0 <= i < j < |keys| && keys[i] == x && keys[j] != x;
      assert all[i] == x && all[j] != x;
    } else if last != x {
      var i :| 0 <= i < |keys| && keys[i] == x;
      assert all[i] == x && all[|keys|] != x;
    }
  }

  lemma {:induction false} DaysStayCovered(policy: RouterPolicy, ticks: seq<Tick>, day: U64)
    requires NeverReturns(Days(ticks)) && Countable(Days(ticks))
    ensures DayCovered(policy, Spent(policy, ticks), Days(ticks), day, GrantedOnDay(policy, ticks, day))
  {
    if ticks != [] {
      var before, last := ticks[..|ticks| - 1], ticks[|ticks| - 1];
      assert ticks == before + [last];
      KeysGrow(before, last);
      PrefixNeverReturns(Days(before), last.day);
      CountableBefore(Days(before), last.day);
      DaysStayCovered(policy, before, day);
      DayStep(policy, Spent(policy, before), last, Days(before), day, GrantedOnDay(policy, before, day));
    }
  }

  lemma DayTurn(policy: RouterPolicy, b: Budget, t: Tick)
    requires policy.dailyBudget == 1 && policy.minuteBudget == U32_MAX
    ensures var (after, ok) := ChargeAt(policy, b, t.minute, t.day);
            after.dayWindow == t.day && (b.dayWindow != t.day || b.dayCount == 0 ==> ok)
  {
  }

  /** With one call a day and minutes that refuse nothing, each turn to a day is granted a call. */
  lemma {:induction false} EveryDayTurnIsGranted(policy: RouterPolicy, ticks: seq<Tick>, day: U64)
    requires policy.dailyBudget == 1 && policy.minuteBudget == U32_MAX
    ensures ticks != [] ==> Spent(policy, ticks).dayWindow == ticks[|ticks| - 1].day
    ensures ticks == [] ==> Spent(policy, ticks).dayCount == 0
    ensures GrantedOnDay(policy, ticks, day) >= Turns(Days(ticks), day)
  {
    if ticks != [] {
      var before, last := ticks[..|ticks| - 1], ticks[|ticks| - 1];
      assert ticks == before + [last];
      KeysGrow(before, last);
      OneMoreKey(Days(before), last.day, day);
      EveryDayTurnIsGranted(policy, before, day);
      DayTurn(policy, Spent(policy, before), last);
    }
  }

  lemma OneMoreTickOnDay(policy: RouterPolicy, before: seq<Tick>, t: Tick, day: U64)
    ensures var (after, ok) := ChargeAt(policy, Spent(policy, before), t.minute, t.day);
            && Spent(policy, before + [t]) == after
            && GrantedOnDay(policy, before + [t], day)
               == GrantedOnDay(policy, before, day) + if t.day == day && ok then 1 else 0
  {
    assert (before + [t])[..|before|] == before;
  }

  lemma DayCounts(policy: RouterPolicy, b: Budget, t: Tick)
    requires policy.dailyBudget == 1 && policy.minuteBudget == U32_MAX
    ensures var (after, ok) := ChargeAt(policy, b, t.minute, t.day);
            && after.dayWindow == t.day
            && after.dayCount == (UsedOnDay(b, t.day) + 1) % U32_RANGE
            && ok == (after.dayCount <= 1)
  {
  }

  lemma {:induction false} WrappedDayIsGrantedTwice(policy: RouterPolicy, ticks: seq<Tick>, day: U64)
    requires policy.dailyBudget == 1 && policy.minuteBudget == U32_MAX && NeverReturns(Days(ticks))
    ensures var b := Spent(policy, ticks);
            CountsCalls(Days(ticks), b.dayWindow, b.dayCount)
    ensures GrantedOnDay(policy, ticks, day) >= WrapGrants(Count(Days(ticks), day))
  {
    if ticks != [] {
      var before, last := ticks[..|ticks| - 1], ticks[|ticks| - 1];
      var keys, b := Days(before), Spent(policy, before);
      assert ticks == before + [last];
      KeysGrow(before, last);
      PrefixNeverReturns(keys, last.day);
      WrappedDayIsGrantedTwice(policy, before, day);
      OneMoreCounted(keys, b.dayWindow, b.dayCount, last.day, day, GrantedOnDay(policy, before, day));
      OneMoreTickOnDay(policy, before, last, day);
      DayCounts(policy, b, last);
    }
  }

  ghost predicate DaysAreSafe(walls: seq<U64>) {
    forall policy, day :: GrantedOnDay(policy, TicksOf(walls), day) <= policy.dailyBudget
  }

  /** The same for days. */
  lemma DayBudgetHoldsIff(walls: seq<U64>)
    ensures DaysAreSafe(walls) <==> NeverReturns(Days(TicksOf(walls))) && Countable(Days(TicksOf(walls)))
  {
    var ticks, keys := TicksOf(walls), Days(TicksOf(walls));
    var policy := RouterPolicy(U32_MAX, 1, 0, 0);
    if !NeverReturns(keys) {
      var i, j, k :| 0 <= i < j < k < |keys| && keys[i] == keys[k] != keys[j];
      ReturningIsTurningTwice(keys, i, j, k);
      EveryDayTurnIsGranted(policy, ticks, keys[i]);
      assert GrantedOnDay(policy, ticks, keys[i]) > policy.dailyBudget;
    } else if !Countable(keys) {
      var day :| Count(keys, day) >= U32_RANGE;
      WrappedDayIsGrantedTwice(policy, ticks, day);
      assert GrantedOnDay(policy, ticks, day) > policy.dailyBudget;
    } else {
      forall any, day ensures GrantedOnDay(any, ticks, day) <= any.dailyBudget {
        DaysStayCovered(any, ticks, day);
      }
    }
  }

  // ----- Clocks -----

  /** On a clock that does not go back no minute and no day recurs, so both budgets hold. */
  lemma BudgetsHold(policy: RouterPolicy, walls: seq<U64>, minute: U64, day: U64)
    requires forall i, j :: 0 <= i < j < |walls| ==> walls[i] <= walls[j]
    requires Countable(Minutes(TicksOf(walls))) && Countable(Days(TicksOf(walls)))
    ensures GrantedInMinute(policy, TicksOf(walls), minute) <= policy.minuteBudget
    ensures GrantedOnDay(policy, TicksOf(walls), day) <= policy.dailyBudget
  {
    SteadyClocksNeverReturn(walls);
    MinuteBudgetHoldsIff(walls);
    DayBudgetHoldsIff(walls);
  }

  lemma SteadyClocksNeverReturn(walls: seq<U64>)
    requires forall i, j :: 0 <= i < j < |walls| ==> walls[i] <= walls[j]
    ensures NeverReturns(Minutes(TicksOf(walls))) && NeverReturns(Days(TicksOf(walls)))
  {
    var minutes, days := Minutes(TicksOf(walls)), Days(TicksOf(walls));
    forall i, j, k | 0 <= i < j < k < |walls|
      ensures minutes[i] == minutes[k] ==> minutes[j] == minutes[i]
      ensures days[i] == days[k] ==> days[j] == days[i]
    {
      Later(walls[i], walls[j]);
      Later(walls[j], walls[k]);
    }
  }

  lemma Later(a: U64, b: U64)
    requires a <= b
    ensures MinuteOf(a) <= MinuteOf(b) && DayOf(a) <= DayOf(b)
  {
  }

  /** n calls at once. */
  function Burst<T>(at: T, n: nat): seq<T> {
    seq(n, _ => at)
  }

  lemma OneIsGranted(policy: RouterPolicy, b: Budget, t: Tick)
    requires UsedInMinute(b, t.minute) < policy.minuteBudget && UsedOnDay(b, t.day) < policy.dailyBudget
    ensures ChargeAt(policy, b, t.minute, t.day)
         == (Budget(t.minute, UsedInMinute(b, t.minute) + 1, t.day, UsedOnDay(b, t.day) + 1), true)
  {
  }

  lemma OneMoreIsGranted(policy: RouterPolicy, before: seq<Tick>, t: Tick, minute: U64)
    requires UsedInMinute(Spent(policy, before), t.minute) < policy.minuteBudget
    requires UsedOnDay(Spent(policy, before), t.day) < policy.dailyBudget
    ensures var b, all := Spent(policy, before), before + [t];
            && GrantedInMinute(policy, all, minute)
               == GrantedInMinute(policy, before, minute) + (if minute == t.minute then 1 else 0)
            && Spent(policy, all) == Budget(t.minute, UsedInMinute(b, t.minute) + 1, t.day, UsedOnDay(b, t.day) + 1)
  {
    OneMoreTick(policy, before, t, minute);
    OneIsGranted(policy, Spent(policy, before), t);
  }

  /** A burst within what minute and day have left is granted as a whole. */
  lemma {:induction false} BurstIsGranted(policy: RouterPolicy, ticks: seq<Tick>, t: Tick, n: nat, minute: U64)
    requires n > 0
    requires UsedInMinute(Spent(policy, ticks), t.minute) + n <= policy.minuteBudget
    requires UsedOnDay(Spent(policy, ticks), t.day) + n <= policy.dailyBudget
    ensures var b, all := Spent(policy, ticks), ticks + Burst(t, n);
            && GrantedInMinute(policy, all, minute)
               == GrantedInMinute(policy, ticks, minute) + (if minute == t.minute then n else 0)
            && Spent(policy, all) == Budget(t.minute, UsedInMinute(b, t.minute) + n, t.day, UsedOnDay(b, t.day) + n)
  {
    var before := ticks + Burst(t, n - 1);
    if n == 1 {
      assert before == ticks;
    } else {
      BurstIsGranted(policy, ticks, t, n - 1, minute);
    }
    OneMoreIsGranted(policy, before, t, minute);
    assert ticks + Burst(t, n) == before + [t];
  }

  lemma TicksOfBursts(wall: U64, other: U64, n: nat)
    ensures TicksOf(Burst(wall, n) + [other] + Burst(wall, n))
         == Burst(Tick(MinuteOf(wall), DayOf(wall)), n) + Burst(Tick(MinuteOf(other), DayOf(other)), 1)
            + Burst(Tick(MinuteOf(wall), DayOf(wall)), n)
  {
  }

  /**
    A clock that turns back to a minute after another one is granted that minute's whole budget
    a second time, whatever the budget is, if the day's budget lets the calls through.
   */
  lemma TurningBackRefillsTheMinute(policy: RouterPolicy, wall: U64, other: U64)
    requires MinuteOf(other) != MinuteOf(wall) && policy.minuteBudget > 0
    requires if DayOf(other) == DayOf(wall) then policy.dailyBudget >= 2 * policy.minuteBudget + 1
             else policy.dailyBudget >= policy.minuteBudget
    ensures var n := policy.minuteBudget;
            GrantedInMinute(policy, TicksOf(Burst(wall, n) + [other] + Burst(wall, n)), MinuteOf(wall)) == 2 * n
  {
    var n := policy.minuteBudget;
    var t, away := Tick(MinuteOf(wall), DayOf(wall)), Tick(MinuteOf(other), DayOf(other));
    TicksOfBursts(wall, other, n);
    assert [] + Burst(t, n) == Burst(t, n);
    BurstIsGranted(policy, [], t, n, t.minute);
    BurstIsGranted(policy, Burst(t, n), away, 1, t.minute);
    BurstIsGranted(policy, Burst(t, n) + Burst(away, 1), t, n, t.minute);
  }
}
