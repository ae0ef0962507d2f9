/** What the router promises: deadlines, chain discipline and breaker history. */
module TaskRoutingLaws {
  import opened Outcomes
  import opened MachineInts
  import opened AiErrors
  import opened ModelRegistries
  import opened TaskRouting

  // ----- Two induction principles: over the protocols of a model, and over the chain -----

  type Midway = (World, seq<ApiProtocol>, AiError, Option<AiError>) -> bool

  /** What one round of the protocol loop must do to carry `inv` to `done`. */
  ghost predicate TryRule(trial: Trial, deadline: nat, inv: Midway, done: Step -> bool,
                          w: World, ps: seq<ApiProtocol>, e: AiError, r: Option<AiError>) {
    inv(w, ps, e, r) ==>
      if ps == [] then done(Onward(w, e, r))
      else if deadline <= w.now then done(Settled(w, Expired))
      else
        var step := trial(w, ps[0], e);
        if step.Settled? then done(step) else inv(step.w, ps[1..], step.lastError, step.rejected)
  }

  lemma {:induction false} TryInduction(trial: Trial, deadline: nat, inv: Midway, done: Step -> bool,
                                        w: World, ps: seq<ApiProtocol>, e: AiError, r: Option<AiError>)
    requires forall w, ps, e, r :: TryRule(trial, deadline, inv, done, w, ps, e, r)
    requires inv(w, ps, e, r)
    ensures done(TryEach(trial, deadline, w, ps, e, r))
    decreases |ps|
  {
    assert TryRule(trial, deadline, inv, done, w, ps, e, r);
    if ps != [] && w.now < deadline {
      var step := trial(w, ps[0], e);
      if step.Onward? {
        TryInduction(trial, deadline, inv, done, step.w, ps[1..], step.lastError, step.rejected);
      }
    }
  }

  /** A trial that its users only need to know by name. */
  ghost predicate IsTrial(trial: Trial, job: Job, env: Environment, turn: Turn) {
    forall w, p, e {:trigger TryProtocol(job, env, turn, w, p, e)} ::
      trial(w, p, e) == TryProtocol(job, env, turn, w, p, e)
  }

  type Along = (World, nat, seq<string>, AiError) -> bool
  type AtEnd = (World, Ending) -> bool

  /** What one visit must do to carry `inv` to `done`. */
  ghost predicate WalkRule(visit: Visitor, chain: seq<string>, deadline: nat, inv: Along, done: AtEnd,
                           w: World, i: nat, attempted: seq<string>, e: AiError) {
    i <= |chain| && inv(w, i, attempted, e) ==>
      if i == |chain| then done(w, GaveUp(if attempted == [] then NO_MODELS else e, attempted))
      else if deadline <= w.now then done(w, Expired)
      else
        var (after, ending) := visit(w, Turn(i, chain[i], attempted), e);
        if ending.GaveUp? then inv(after, i + 1, ending.attempted, ending.error) else done(after, ending)
  }

  lemma {:induction false} WalkInduction(visit: Visitor, chain: seq<string>, deadline: nat, inv: Along, done: AtEnd,
                                         w: World, i: nat, attempted: seq<string>, e: AiError)
    requires forall w, i, attempted, e :: WalkRule(visit, chain, deadline, inv, done, w, i, attempted, e)
    requires i <= |chain| && inv(w, i, attempted, e)
    ensures var (after, ending) := WalkWith(visit, chain, deadline, w, i, attempted, e);
            done(after, ending)
    decreases |chain| - i
  {
    assert WalkRule(visit, chain, deadline, inv, done, w, i, attempted, e);
    if i < |chain| && w.now < deadline {
      var (after, ending) := visit(w, Turn(i, chain[i], attempted), e);
      if ending.GaveUp? {
        WalkInduction(visit, chain, deadline, inv, done, after, i + 1, ending.attempted, ending.error);
      }
    }
  }

  // ----- One provider call -----

  /** The last call was answered Ok, and this is the response that comes back. */
  ghost predicate WonBy(w: World, model: string, response: StructuredResponse) {
    && w.calls != []
    && var last := w.calls[|w.calls| - 1];
       && last.model == model
       && last.answer.Answered? && last.answer.outcome.Ok?
       && response == Stamped(last.answer.outcome.value, model, last.protocol)
  }

  ghost predicate Credited(w: World, turn: Turn, ending: Ending) {
    && (ending.Won? ==>
          ending.index == turn.index && ending.attempted == turn.attempted && WonBy(w, turn.model, ending.response))
    && (ending.GaveUp? ==> ending.attempted == turn.attempted)
  }

  /** Whatever the answer was, a step makes exactly the one call. */
  lemma StepMakesOneCall(job: Job, env: Environment, turn: Turn, w: World, p: ApiProtocol, e: AiError)
    ensures var s := TryProtocol(job, env, turn, w, p, e);
            && s.w.visits == w.visits
            && s.w.calls == Attempt(job, env, w, turn.model, p).calls
            && s.w.now == Attempt(job, env, w, turn.model, p).now
            && (s.Settled? && s.ending.Expired? ==> job.deadline <= s.w.now)
            && (s.Settled? ==> Credited(s.w, turn, s.ending))
  {
  }

  // ----- Deadline and number of calls -----

  /** One call within its own limit, the deadline and half the route's timeout. */
  ghost predicate Fits(job: Job, c: Call) {
    && c.started < job.deadline
    && c.started <= c.ended
    && c.ended - c.started <= PerAttemptBudget(job.timeout, job.deadline - c.started)
  }

  /** Calls follow one another without a gap from `from` to `now`. */
  ghost predicate Timed(job: Job, from: nat, calls: seq<Call>, now: nat) {
    if calls == [] then now == from
    else
      var last := calls[|calls| - 1];
      now == last.ended && Fits(job, last) && Timed(job, from, calls[..|calls| - 1], last.started)
  }

  lemma {:induction false} TimedCalls(job: Job, from: nat, calls: seq<Call>, now: nat)
    requires Timed(job, from, calls, now) && from <= job.deadline
    ensures from <= now <= job.deadline
    ensures forall c <- calls :: Fits(job, c) && c.ended <= job.deadline
  {
    if calls != [] {
      var last := calls[|calls| - 1];
      TimedCalls(job, from, calls[..|calls| - 1], last.started);
    }
  }

  lemma AttemptKeepsTime(job: Job, env: Environment, w: World, model: string, p: ApiProtocol, from: nat)
    requires Timed(job, from, w.calls, w.now) && w.now < job.deadline
    ensures Timed(job, from, Attempt(job, env, w, model, p).calls, Attempt(job, env, w, model, p).now)
  {
    var after := Attempt(job, env, w, model, p);
    assert after.calls[..|w.calls|] == w.calls;
  }

  ghost predicate InTime(job: Job, from: nat, most: nat, w: World, ending: Ending) {
    && Timed(job, from, w.calls, w.now)
    && |w.calls| <= most
    && (ending.Expired? ==> job.deadline <= w.now)
  }

  ghost function PunctualSoFar(job: Job, from: nat, most: nat): Midway {
    (w: World, ps: seq<ApiProtocol>, e, r) => Timed(job, from, w.calls, w.now) && |w.calls| + |ps| <= most
  }

  ghost function PunctualStep(job: Job, from: nat, most: nat): Step -> bool {
    (s: Step) => InTime(job, from, most, s.w, if s.Settled? then s.ending else GaveUp(s.lastError, []))
  }

  lemma TryStaysPunctual(job: Job, env: Environment, turn: Turn, from: nat, most: nat,
                         trial: Trial, w: World, ps: seq<ApiProtocol>, e: AiError, r: Option<AiError>)
    requires IsTrial(trial, job, env, turn)
    ensures TryRule(trial, job.deadline, PunctualSoFar(job, from, most), PunctualStep(job, from, most), w, ps, e, r)
  {
    if ps != [] && w.now < job.deadline && Timed(job, from, w.calls, w.now) {
      AttemptKeepsTime(job, env, w, turn.model, ps[0], from);
      StepMakesOneCall(job, env, turn, w, ps[0], e);
    }
  }

  lemma TryTakesTime(job: Job, env: Environment, turn: Turn, w: World, ps: seq<ApiProtocol>, e: AiError, from: nat)
    requires Timed(job, from, w.calls, w.now)
    ensures var (after, ending) := TryProtocols(job, env, turn, w, ps, e);
            InTime(job, from, |w.calls| + |ps|, after, ending)
  {
    var most := |w.calls| + |ps|;
    var trial := TrialOf(job, env, turn);
    forall v, qs, e, r
      ensures TryRule(trial, job.deadline, PunctualSoFar(job, from, most), PunctualStep(job, from, most), v, qs, e, r)
    {
      TryStaysPunctual(job, env, turn, from, most, trial, v, qs, e, r);
    }
    TryInduction(trial, job.deadline, PunctualSoFar(job, from, most), PunctualStep(job, from, most), w, ps, e, None);
  }

  /** The most protocols any model of this request can be tried with. */
  function MostProtocols(job: Job): nat {
    if job.pinned.Some? then 1 else if job.preference == [] then 2 else |job.preference|
  }

  lemma {:induction false} UsableIsShorter(caps: ModelCapabilities, recent: bool, ps: seq<ApiProtocol>)
    ensures |Usable(caps, recent, ps)| <= |ps|
    ensures !recent ==> Usable(caps, recent, ps) == ps
  {
    if ps != [] {
      UsableIsShorter(caps, recent, ps[1..]);
    }
  }

  lemma FewProtocols(job: Job, registry: Registry, now: nat, model: string)
    ensures |ProtocolsFor(job, registry, now, model)| <= MostProtocols(job)
  {
    var caps := Lookup(registry, model).GetOr(UnknownModel(model));
    UsableIsShorter(caps, IsFresh(registry, now), caps.PreferredProtocols());
    UsableIsShorter(caps, IsFresh(registry, now), job.preference);
  }

  lemma VisitTakesTime(job: Job, env: Environment, w: World, turn: Turn, e: AiError, from: nat)
    requires Timed(job, from, w.calls, w.now)
    ensures var (after, ending) := VisitModel(job, env, w, turn, e);
            InTime(job, from, |w.calls| + MostProtocols(job), after, ending)
  {
    var asked := Noted(job, Arrived(job, env, w, turn.index, turn.model), Consulted(job.id, turn.model));
    var ps := ProtocolsFor(job, asked.shared.registry, asked.now, turn.model);
    FewProtocols(job, asked.shared.registry, asked.now, turn.model);
    TryTakesTime(job, env, turn.(attempted := turn.attempted + [turn.model]), asked, ps, e, from);
  }

  /** The calls that `n` models may take with at most `p` protocols each. */
  function CallsFor(n: nat, p: nat): nat {
    if n == 0 then 0 else p + CallsFor(n - 1, p)
  }

  lemma {:induction false} CallsForIsProduct(n: nat, p: nat)
    ensures CallsFor(n, p) == n * p
  {
    if n > 0 {
      CallsForIsProduct(n - 1, p);
    }
  }

  ghost predicate OnSchedule(job: Job, from: nat, w: World, i: nat) {
    && Timed(job, from, w.calls, w.now)
    && i <= |job.chain|
    && |w.calls| + CallsFor(|job.chain| - i, MostProtocols(job)) <= CallsFor(|job.chain|, MostProtocols(job))
  }

  ghost function ScheduleKept(job: Job, from: nat): Along {
    (w, i: nat, attempted, e) => OnSchedule(job, from, w, i)
  }

  ghost function ScheduleMet(job: Job, from: nat): AtEnd {
    (w, ending) => InTime(job, from, CallsFor(|job.chain|, MostProtocols(job)), w, ending)
  }

  lemma WalkStaysOnSchedule(job: Job, env: Environment, from: nat, visit: Visitor,
                            w: World, i: nat, attempted: seq<string>, e: AiError)
    requires IsVisitor(visit, job, env)
    ensures WalkRule(visit, job.chain, job.deadline, ScheduleKept(job, from), ScheduleMet(job, from),
        w, i, attempted, e)
  {
    if i < |job.chain| && OnSchedule(job, from, w, i) {
      VisitTakesTime(job, env, w, Turn(i, job.chain[i], attempted), e, from);
    }
  }

  lemma WalkTakesTime(job: Job, env: Environment, w: World)
    requires w.calls == []
    ensures var (after, ending) := WalkChain(job, env, w);
            InTime(job, w.now, CallsFor(|job.chain|, MostProtocols(job)), after, ending)
  {
    var visit := VisitorOf(job, env);
    var inv, done := ScheduleKept(job, w.now), ScheduleMet(job, w.now);
    forall x, i: nat, attempted, e ensures WalkRule(visit, job.chain, job.deadline, inv, done, x, i, attempted, e) {
      WalkStaysOnSchedule(job, env, w.now, visit, x, i, attempted, e);
    }
    assert OnSchedule(job, w.now, w, 0);
    WalkInduction(visit, job.chain, job.deadline, inv, done, w, 0, [], NO_ATTEMPT);
  }

  /** A request that has just been routed. */
  ghost predicate Routed(job: Job, w: World) {
    w.calls == [] && w.visits == [] && job.deadline == w.now + job.timeout
  }

  /** No request outlasts its route, no call its share, and the number of calls is bounded. */
  lemma DeadlineLaw(job: Job, env: Environment, w: World)
    requires Routed(job, w)
    ensures var (after, ending) := Complete(job, env, w);
            && w.now <= after.now <= w.now + job.timeout
            && (ending.Expired? ==> after.now == w.now + job.timeout)
            && |after.calls| <= |job.chain| * MostProtocols(job)
            && forall c <- after.calls ::
                 && c.started <= c.ended
                 && c.ended - c.started <= Max(job.timeout / 2, MILLISECOND)
                 && c.ended <= job.deadline
  {
    var charged := Noted(job, w, Charged(job.id, env.wall(w.now)));
    WalkTakesTime(job, env, charged);
    var after := Complete(job, env, w).0;
    TimedCalls(job, w.now, after.calls, after.now);
    CallsForIsProduct(|job.chain|, MostProtocols(job));
  }

  ghost predicate DeadlineTakesTwoCalls(job: Job, now: nat) {
    forall env: Environment, s: Shared ::
      Complete(job, env, Start(s, now)).1.Expired? ==> |Complete(job, env, Start(s, now)).0.calls| >= 2
  }

  lemma LongRoutesTakeTwoCalls(job: Job, env: Environment, w: World)
    requires Routed(job, w) && job.timeout > MILLISECOND
    ensures Complete(job, env, w).1.Expired? ==> |Complete(job, env, w).0.calls| >= 2
  {
    var charged := Noted(job, w, Charged(job.id, env.wall(w.now)));
    WalkTakesTime(job, env, charged);
    var after := Complete(job, env, w).0;
    if |after.calls| == 1 {
      assert after.calls[..0] == [];
      assert Timed(job, w.now, after.calls[..0], after.calls[0].started);
      assert Fits(job, after.calls[0]);
    }
  }

  function Hanging(timeout: nat): Environment {
    Environment(_ => Reply(timeout + 1, Err(AiError.Timeout), []), _ => [], _ => 0)
  }

  function Blank(): Shared {
    Shared(map[], None, Budget(0, 0, 0, 0))
  }

  /** A first call that never returns uses up any route of at most one millisecond. */
  lemma OneHangEndsAShortRoute(job: Job, now: nat)
    requires job.chain != [] && job.deadline == now + job.timeout && job.timeout <= MILLISECOND
    requires job.policy.minuteBudget > 0 && job.policy.dailyBudget > 0
    ensures var (after, ending) := Complete(job, Hanging(job.timeout), Start(Blank(), now));
            ending.Expired? && |after.calls| <= 1
  {
    var env := Hanging(job.timeout);
    var w := Start(Blank(), now);
    var charged := Noted(job, w, Charged(job.id, 0));
    assert Charge(job.policy, Blank().budget, 0).1;
    if job.timeout > 0 {
      var turn := Turn(0, job.chain[0], []);
      var chosen := turn.(attempted := [turn.model]);
      var met := Arrived(job, env, charged, 0, turn.model);
      assert met.shared == charged.shared;
      var asked := Noted(job, met, Consulted(job.id, turn.model));
      var ps := ProtocolsFor(job, asked.shared.registry, asked.now, turn.model);
      UsableIsShorter(UnknownModel(turn.model), false, UnknownModel(turn.model).PreferredProtocols());
      UsableIsShorter(UnknownModel(turn.model), false, job.preference);
      assert ps != [];
      var after := Attempt(job, env, asked, turn.model, ps[0]);
      assert LastAnswer(after) == TimedOut && after.now == job.deadline;
      assert TryProtocol(job, env, chosen, asked, ps[0], NO_ATTEMPT) == Settled(after, Expired);
      assert TryProtocols(job, env, chosen, asked, ps, NO_ATTEMPT) == (after, Expired);
      assert turn.attempted + [turn.model] == chosen.attempted;
      assert VisitModel(job, env, charged, turn, NO_ATTEMPT) == (after, Expired);
    }
  }

  /** Reaching the deadline proves a second chance was given exactly on routes above one millisecond. */
  lemma DeadlineTakesTwoCallsIff(job: Job, now: nat)
    requires job.chain != [] && job.deadline == now + job.timeout
    requires job.policy.minuteBudget > 0 && job.policy.dailyBudget > 0
    ensures DeadlineTakesTwoCalls(job, now) <==> job.timeout > MILLISECOND
  {
    if job.timeout > MILLISECOND {
      forall env: Environment, s: Shared
        ensures Complete(job, env, Start(s, now)).1.Expired? ==> |Complete(job, env, Start(s, now)).0.calls| >= 2
      {
        LongRoutesTakeTwoCalls(job, env, Start(s, now));
      }
    } else {
      OneHangEndsAShortRoute(job, now);
    }
  }

  // ----- Chain discipline -----

  ghost predicate Distinct<T>(s: seq<T>) {
    forall i, j :: 0 <= i < j < |s| ==> s[i] != s[j]
  }

  /** The configured chain: the primary first, every fallback once, in their own order. */
  lemma {:induction false} ChainIsDeduplicated(primary: string, fallbacks: seq<string>)
    ensures var chain := ModelChain(primary, fallbacks);
            && chain != [] && chain[0] == primary
            && Distinct(chain)
            && (forall m :: m in chain <==> m == primary || m in fallbacks)
  {
    if fallbacks != [] {
      ChainIsDeduplicated(primary, fallbacks[..|fallbacks| - 1]);
      assert fallbacks == fallbacks[..|fallbacks| - 1] + [fallbacks[|fallbacks| - 1]];
    }
  }

  /**
    Every request walks a non-empty chain without repetitions, up to its route's deadline: its
    own model alone if it names one, and otherwise the route's; it keeps its own protocol, and
    asks for no more tokens than it or the route allows.
   */
  lemma JobsAreRouted(id: nat, policy: RouterPolicy, route: TaskRoute, request: StructuredRequest, w: World)
    requires w.calls == [] && w.visits == []
    ensures var job := JobOf(id, policy, route, request, w.now);
            && Routed(job, w) && job.chain != [] && Distinct(job.chain)
            && job.chain[0] == request.model.GetOr(route.primaryModel)
            && (forall m :: m in job.chain <==>
                  if request.model.Some? then m == request.model.value
                  else m == route.primaryModel || m in route.fallbackModels)
            && job.pinned == request.protocol && job.preference == route.protocolPreference
            && job.timeout == route.timeout && job.deadline == w.now + route.timeout
            && job.maxOutputTokens <= request.maxOutputTokens && job.maxOutputTokens <= route.maxOutputTokens
            && (job.maxOutputTokens == request.maxOutputTokens || job.maxOutputTokens == route.maxOutputTokens)
  {
    ChainIsDeduplicated(route.primaryModel, route.fallbackModels);
  }

  /** The protocols a model was called with, in order. */
  function Tried(calls: seq<Call>, model: string): seq<ApiProtocol> {
    if calls == [] then []
    else
      var last := calls[|calls| - 1];
      Tried(calls[..|calls| - 1], model) + if last.model == model then [last.protocol] else []
  }

  predicate Skipped(env: Environment, v: Visit) {
    !Allows(v) || Breaks(env, v)
  }

  /** The protocols a visited model may be tried with, from the request's own override. */
  function Offered(job: Job, env: Environment, v: Visit): seq<ApiProtocol> {
    if Skipped(env, v) then [] else ProtocolsFor(job, v.seen.registry, v.at, v.model)
  }

  /** The visited models that were neither disallowed nor circuit-open. */
  function Kept(env: Environment, visits: seq<Visit>): seq<string> {
    if visits == [] then []
    else
      var last := visits[|visits| - 1];
      Kept(env, visits[..|visits| - 1]) + if Skipped(env, last) then [] else [last.model]
  }

  lemma AttemptLogs(job: Job, env: Environment, w: World, model: string, p: ApiProtocol, x: string)
    ensures var after := Attempt(job, env, w, model, p);
            Tried(after.calls, x) == Tried(w.calls, x) + if x == model then [p] else []
  {
    var after := Attempt(job, env, w, model, p);
    assert after.calls[..|w.calls|] == w.calls;
  }

  ghost predicate TriedInOrder(w: World, turn: Turn, visits: seq<Visit>, x: string, all: seq<ApiProtocol>) {
    w.visits == visits && if x == turn.model then Tried(w.calls, x) <= all else Tried(w.calls, x) == all
  }

  ghost predicate Underway(w: World, turn: Turn, visits: seq<Visit>, x: string, all: seq<ApiProtocol>,
      ps: seq<ApiProtocol>) {
    w.visits == visits && all == Tried(w.calls, x) + if x == turn.model then ps else []
  }

  lemma OneMoreTried(tried: seq<ApiProtocol>, ps: seq<ApiProtocol>)
    requires ps != []
    ensures tried + [ps[0]] + ps[1..] == tried + ps
  {
  }

  lemma TryStepLogs(job: Job, env: Environment, turn: Turn, visits: seq<Visit>, x: string, all: seq<ApiProtocol>,
                    w: World, ps: seq<ApiProtocol>, calls: seq<Call>)
    requires ps != [] && Underway(w, turn, visits, x, all, ps)
    requires calls == Attempt(job, env, w, turn.model, ps[0]).calls
    ensures all == Tried(calls, x) + if x == turn.model then ps[1..] else []
  {
    AttemptLogs(job, env, w, turn.model, ps[0], x);
    if x == turn.model {
      OneMoreTried(Tried(w.calls, x), ps);
    } else {
      assert Tried(w.calls, x) + [] == Tried(w.calls, x);
    }
  }

  lemma TryStaysUnderway(job: Job, env: Environment, turn: Turn, visits: seq<Visit>, x: string, all: seq<ApiProtocol>,
                         trial: Trial, w: World, ps: seq<ApiProtocol>, e: AiError, r: Option<AiError>)
    requires IsTrial(trial, job, env, turn)
    ensures TryRule(trial, job.deadline, UnderwayWith(turn, visits, x, all), LoggedStep(turn, visits, x, all),
        w, ps, e, r)
  {
    if ps != [] && Underway(w, turn, visits, x, all, ps) {
      StepMakesOneCall(job, env, turn, w, ps[0], e);
      TryStepLogs(job, env, turn, visits, x, all, w, ps, TryProtocol(job, env, turn, w, ps[0], e).w.calls);
    }
  }

  ghost function UnderwayWith(turn: Turn, visits: seq<Visit>, x: string, all: seq<ApiProtocol>): Midway {
    (w, ps, e, r) => Underway(w, turn, visits, x, all, ps)
  }

  ghost function LoggedStep(turn: Turn, visits: seq<Visit>, x: string, all: seq<ApiProtocol>): Step -> bool {
    (s: Step) => TriedInOrder(s.w, turn, visits, x, all) && (s.Settled? ==> Credited(s.w, turn, s.ending))
  }

  lemma TryLogs(job: Job, env: Environment, turn: Turn, w: World, ps: seq<ApiProtocol>, e: AiError, x: string)
    ensures var (after, ending) := TryProtocols(job, env, turn, w, ps, e);
            && TriedInOrder(after, turn, w.visits, x, Tried(w.calls, x) + if x == turn.model then ps else [])
            && Credited(after, turn, ending)
  {
    var all := Tried(w.calls, x) + if x == turn.model then ps else [];
    var trial := TrialOf(job, env, turn);
    forall v, qs, e, r
      ensures TryRule(trial, job.deadline, UnderwayWith(turn, w.visits, x, all), LoggedStep(turn, w.visits, x, all),
          v, qs, e, r)
    {
      TryStaysUnderway(job, env, turn, w.visits, x, all, trial, v, qs, e, r);
    }
    TryInduction(trial, job.deadline, UnderwayWith(turn, w.visits, x, all), LoggedStep(turn, w.visits, x, all),
      w, ps, e, None);
  }

  /** One visit, as the log records it. */
  ghost predicate VisitLogged(job: Job, env: Environment, w: World, turn: Turn, after: World, ending: Ending) {
    && |after.visits| == |w.visits| + 1 && after.visits[..|w.visits|] == w.visits
    && var v := after.visits[|w.visits|];
       && v.model == turn.model
       && Tried(after.calls, turn.model) <= Offered(job, env, v)
       && Credited(after, turn.(attempted := turn.attempted + if Skipped(env, v) then [] else [v.model]), ending)
       && (ending.Won? ==> !Skipped(env, v))
  }

  lemma VisitLogs(job: Job, env: Environment, w: World, turn: Turn, e: AiError)
    requires Tried(w.calls, turn.model) == []
    ensures var (after, ending) := VisitModel(job, env, w, turn, e);
            VisitLogged(job, env, w, turn, after, ending)
  {
    var met := Arrived(job, env, w, turn.index, turn.model);
    var asked := Noted(job, met, Consulted(job.id, turn.model));
    var ps := ProtocolsFor(job, asked.shared.registry, asked.now, turn.model);
    var chosen := turn.(attempted := turn.attempted + [turn.model]);
    var v := met.visits[|w.visits|];
    assert met.visits[..|w.visits|] == w.visits;
    if !Skipped(env, v) && ps != [] {
      TryLogs(job, env, chosen, asked, ps, e, turn.model);
      var (after, ending) := TryProtocols(job, env, chosen, asked, ps, e);
      assert VisitModel(job, env, w, turn, e) == (after, ending);
      assert Offered(job, env, v) == ps && [] + ps == ps;
    } else if !Skipped(env, v) {
      assert VisitModel(job, env, w, turn, e) == (asked, GaveUp(NoProtocol(turn.model, job.task), chosen.attempted));
    }
  }

  lemma VisitLeavesOthers(job: Job, env: Environment, w: World, turn: Turn, e: AiError, x: string)
    requires x != turn.model
    ensures Tried(VisitModel(job, env, w, turn, e).0.calls, x) == Tried(w.calls, x)
  {
    var asked := Noted(job, Arrived(job, env, w, turn.index, turn.model), Consulted(job.id, turn.model));
    var ps := ProtocolsFor(job, asked.shared.registry, asked.now, turn.model);
    TryLogs(job, env, turn.(attempted := turn.attempted + [turn.model]), asked, ps, e, x);
  }

  /** The log after `i` models: what was offered, what was tried, and who counts as attempted. */
  ghost predicate Logged(job: Job, env: Environment, w: World, i: nat, attempted: seq<string>) {
    && i == |w.visits| <= |job.chain|
    && attempted == Kept(env, w.visits)
    && VisitsFollow(job.chain, w.visits)
    && (forall j | 0 <= j < i :: Tried(w.calls, w.visits[j].model) <= Offered(job, env, w.visits[j]))
    && (forall j | i <= j < |job.chain| :: Tried(w.calls, job.chain[j]) == [])
  }

  ghost predicate Disciplined(job: Job, env: Environment, w: World, ending: Ending) {
    && Logged(job, env, w, |w.visits|, Kept(env, w.visits))
    && (ending.Won? ==>
          && ending.attempted == Kept(env, w.visits)
          && ending.index == |w.visits| - 1
          && !Skipped(env, w.visits[ending.index])
          && WonBy(w, job.chain[ending.index], ending.response))
    && (ending.GaveUp? ==>
          && ending.attempted == Kept(env, w.visits)
          && |w.visits| == |job.chain|
          && (ending.attempted == [] ==> ending.error == NO_MODELS))
  }

  lemma VisitExtendsLog(job: Job, env: Environment, w: World, i: nat, attempted: seq<string>, e: AiError)
    requires Distinct(job.chain) && i < |job.chain| && Logged(job, env, w, i, attempted)
    ensures var (after, ending) := VisitModel(job, env, w, Turn(i, job.chain[i], attempted), e);
            && Logged(job, env, after, i + 1, Kept(env, after.visits))
            && (ending.GaveUp? ==> ending.attempted == Kept(env, after.visits))
            && (ending.Won? ==> Disciplined(job, env, after, ending))
  {
    var turn := Turn(i, job.chain[i], attempted);
    var (after, ending) := VisitModel(job, env, w, turn, e);
    VisitLogs(job, env, w, turn, e);
    forall j | 0 <= j < |job.chain| && j != i ensures Tried(after.calls, job.chain[j]) == Tried(w.calls, job.chain[j]) {
      VisitLeavesOthers(job, env, w, turn, e, job.chain[j]);
    }
    forall j | 0 <= j < i ensures after.visits[j] == w.visits[j] {
      assert after.visits[j] == after.visits[..i][j];
    }
  }

  ghost function LogKept(job: Job, env: Environment): Along {
    (w, i: nat, attempted, e) => Logged(job, env, w, i, attempted)
  }

  ghost function LogComplete(job: Job, env: Environment): AtEnd {
    (w, ending) => Disciplined(job, env, w, ending)
  }

  lemma WalkStaysLogged(job: Job, env: Environment, visit: Visitor, w: World, i: nat, attempted: seq<string>,
      e: AiError)
    requires Distinct(job.chain) && IsVisitor(visit, job, env)
    ensures WalkRule(visit, job.chain, job.deadline, LogKept(job, env), LogComplete(job, env), w, i, attempted, e)
  {
    if i < |job.chain| && Logged(job, env, w, i, attempted) {
      VisitExtendsLog(job, env, w, i, attempted, e);
    }
  }

  lemma WalkIsDisciplined(job: Job, env: Environment, w: World)
    requires Distinct(job.chain) && w.calls == [] && w.visits == []
    ensures var (after, ending) := WalkChain(job, env, w);
            Disciplined(job, env, after, ending)
  {
    var visit := VisitorOf(job, env);
    var inv, done := LogKept(job, env), LogComplete(job, env);
    forall x, i: nat, attempted, e ensures WalkRule(visit, job.chain, job.deadline, inv, done, x, i, attempted, e) {
      WalkStaysLogged(job, env, visit, x, i, attempted, e);
    }
    assert Logged(job, env, w, 0, []);
    WalkInduction(visit, job.chain, job.deadline, inv, done, w, 0, [], NO_ATTEMPT);
  }

  lemma {:induction false} KeptModels(env: Environment, visits: seq<Visit>, chain: seq<string>)
    requires VisitsFollow(chain, visits) && Distinct(chain)
    ensures Distinct(Kept(env, visits))
    ensures forall m <- Kept(env, visits) :: m in chain[..|visits|]
  {
    if visits != [] {
      KeptModels(env, visits[..|visits| - 1], chain);
      assert visits[|visits| - 1].model !in chain[..|visits| - 1];
    }
  }

  ghost predicate WonFairly(job: Job, env: Environment, w: World, ending: Ending)
    requires ending.Won?
  {
    && ending.index < |job.chain|
    && var winner := job.chain[ending.index];
       && ending.attempted == Kept(env, w.visits)
       && Distinct(ending.attempted)
       && ending.attempted != [] && ending.attempted[|ending.attempted| - 1] == winner
       && WonBy(w, winner, ending.response)
       && (ending.index > 0 <==> winner != job.chain[0])
       && forall m <- job.chain[..ending.index] :: m in ending.attempted || WasSkipped(env, w.visits, m)
  }

  ghost predicate WasSkipped(env: Environment, visits: seq<Visit>, m: string) {
    exists v <- visits :: v.model == m && Skipped(env, v)
  }

  /** The visits are those of the chain's models, from its head on and in its order. */
  ghost predicate VisitsFollow(chain: seq<string>, visits: seq<Visit>) {
    |visits| <= |chain| && forall j | 0 <= j < |visits| :: visits[j].model == chain[j]
  }

  lemma WinnersAreFair(job: Job, env: Environment, w: World, ending: Ending)
    requires ending.Won? && Disciplined(job, env, w, ending) && Distinct(job.chain)
    ensures |w.visits| == ending.index + 1 && WonFairly(job, env, w, ending)
  {
    KeptModels(env, w.visits, job.chain);
    forall m <- job.chain[..ending.index] | m !in ending.attempted ensures WasSkipped(env, w.visits, m) {
      var j :| 0 <= j < ending.index && job.chain[j] == m;
      KeptHasUnskipped(env, w.visits, j);
      assert w.visits[j] in w.visits;
    }
  }

  lemma VisitsTriedTheirOwn(job: Job, env: Environment, w: World, ending: Ending)
    requires Disciplined(job, env, w, ending)
    ensures VisitsFollow(job.chain, w.visits)
    ensures forall v <- w.visits :: Tried(w.calls, v.model) <= Offered(job, env, v)
  {
  }

  /**
    The walk visits the chain from its head on. On success the attempted models are the visited
    ones that were neither disallowed nor circuit-open, each once and in chain order, ending in
    the winner; used_fallback says whether the winner is not the head; and the response is what
    the provider's last call returned. On any outcome each model was tried with a prefix of its
    own protocols.
   */
  lemma ChainDiscipline(job: Job, env: Environment, w: World)
    requires Routed(job, w) && Distinct(job.chain)
    ensures var (after, ending) := Complete(job, env, w);
            && VisitsFollow(job.chain, after.visits)
            && (ending.Won? ==> |after.visits| == ending.index + 1 && WonFairly(job, env, after, ending))
            && forall v <- after.visits :: Tried(after.calls, v.model) <= Offered(job, env, v)
  {
    var charged := Noted(job, w, Charged(job.id, env.wall(w.now)));
    WalkIsDisciplined(job, env, charged);
    var (after, ending) := Complete(job, env, w);
    if Charge(job.policy, w.shared.budget, env.wall(w.now)).1 {
      VisitsTriedTheirOwn(job, env, after, ending);
      if ending.Won? {
        WinnersAreFair(job, env, after, ending);
      }
    }
  }

  lemma {:induction false} KeptHasUnskipped(env: Environment, visits: seq<Visit>, j: nat)
    requires j < |visits|
    ensures Skipped(env, visits[j]) || visits[j].model in Kept(env, visits)
  {
    if j < |visits| - 1 {
      KeptHasUnskipped(env, visits[..|visits| - 1], j);
    }
  }

  /** A request that gives up has visited its whole chain, and blames the registry only when nothing was tried. */
  lemma GivingUpIsExhaustive(job: Job, env: Environment, w: World)
    requires Routed(job, w) && Distinct(job.chain)
    requires Charge(job.policy, w.shared.budget, env.wall(w.now)).1
    ensures var (after, ending) := Complete(job, env, w);
            ending.GaveUp? ==>
              && |after.visits| == |job.chain| && VisitsFollow(job.chain, after.visits)
              && ending.attempted == Kept(env, after.visits) && Distinct(ending.attempted)
              && (forall v <- after.visits :: v.model in ending.attempted || Skipped(env, v))
              && (ending.attempted == [] ==> ending.error == NO_MODELS)
  {
    var charged := Noted(job, w, Charged(job.id, env.wall(w.now)));
    WalkIsDisciplined(job, env, charged);
    var (after, ending) := Complete(job, env, w);
    KeptModels(env, after.visits, job.chain);
    forall v <- after.visits ensures v.model in Kept(env, after.visits) || Skipped(env, v) {
      var j :| 0 <= j < |after.visits| && after.visits[j] == v;
      KeptHasUnskipped(env, after.visits, j);
    }
  }
}
