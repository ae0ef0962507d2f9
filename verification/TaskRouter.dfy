/**
  Multi-model task router: a chain of models, several protocols per model, one shared
  deadline, a circuit breaker per model and a registry filter.

  Instants and durations are nanoseconds. The provider is an adversary that may answer
  anything after any delay; other requests act on the shared state at every visit and
  during every provider call; the wall clock is an arbitrary function of the instant.
 */
module TaskRouting {
  import opened Outcomes
  import opened MachineInts
  import opened AiErrors
  import opened ModelRegistries
  import Text

  const MILLISECOND := 1_000_000
  const U32_RANGE := 0x1_0000_0000

  datatype RouterPolicy = RouterPolicy(
    minuteBudget: U32,
    dailyBudget: U32,
    failureThreshold: U32,
    circuitOpenMs: U64)

  datatype TaskRoute = TaskRoute(
    primaryModel: string,
    fallbackModels: seq<string>,
    protocolPreference: seq<ApiProtocol>,
    timeout: nat,
    maxOutputTokens: U32,
    enabled: bool,
    routeVersion: string)

  datatype StructuredRequest = StructuredRequest(
    task: string,
    prompt: string,
    maxOutputTokens: U32,
    model: Option<string>,
    protocol: Option<ApiProtocol>)

  datatype StructuredResponse = StructuredResponse(model: string, content: string, protocol: Option<ApiProtocol>)

  datatype RoutedCompletion = RoutedCompletion(
    response: StructuredResponse,
    task: string,
    routeVersion: string,
    attemptedModels: seq<string>,
    usedFallback: bool)

  datatype Breaker = Breaker(failures: U32, openUntil: U64)

  datatype Budget = Budget(minuteWindow: U64, minuteCount: U32, dayWindow: U64, dayCount: U32)

  /** Everything requests share: breakers, discovered models and the call budget. */
  datatype Shared = Shared(breakers: map<string, Breaker>, registry: Registry, budget: Budget)

  const CLOSED := Breaker(0, 0)

  // ----- Classifying errors -----

  predicate IsProtocolRejection(e: AiError) {
    && e.ProviderRejected?
    && var lower := Text.Lower(e.message);
       || Text.Contains(lower, "protocol")
       || Text.Contains(lower, "responses")
       || Text.Contains(lower, "chat/completions")
       || Text.Contains(lower, "not supported")
  }

  predicate IsModelMissing(e: AiError) {
    && e.ProviderRejected?
    && var lower := Text.Lower(e.message);
       && Text.Contains(lower, "model")
       && (|| Text.Contains(lower, "not found")
           || Text.Contains(lower, "does not exist")
           || Text.Contains(lower, "unknown")
           || Text.Contains(lower, "http 404"))
  }

  /** The errors a breaker counts. */
  predicate Counts(e: AiError) {
    e.Timeout? || e.Transport? || e.RateLimited? || e.ProviderRejected? || e.InvalidOutput?
  }

  // ----- Shared state, one atomic step at a time -----

  /** What a request, named by `who`, did to the shared state. */
  datatype Event =
    | Consulted(who: nat, model: string)
    | Succeeded(who: nat, model: string)
    | Failed(who: nat, model: string, wall: U64)
    | Proved(who: nat, model: string, protocol: ApiProtocol, at: nat)
    | Missing(who: nat, model: string, at: nat)
    | Listed(who: nat, rows: seq<ModelCapabilities>, ttl: nat, at: nat)
    | Charged(who: nat, wall: U64)

  function BreakerOf(breakers: map<string, Breaker>, model: string): Breaker {
    if model in breakers then breakers[model] else CLOSED
  }

  predicate IsCircuitOpen(breakers: map<string, Breaker>, model: string, wall: U64) {
    BreakerOf(breakers, model).openUntil > wall
  }

  function AfterFailure(policy: RouterPolicy, b: Breaker, wall: U64): Breaker {
    var failures := (b.failures + 1) % U32_RANGE;
    Breaker(
      failures,
      if failures >= policy.failureThreshold then Min(wall + policy.circuitOpenMs, U64_MAX) else b.openUntil)
  }

  function ChargedMinute(b: Budget, minute: U64): Budget {
    var open := if b.minuteWindow != minute then b.(minuteWindow := minute, minuteCount := 0) else b;
    open.(minuteCount := (open.minuteCount + 1) % U32_RANGE)
  }

  function ChargedDay(b: Budget, day: U64): Budget {
    var open := if b.dayWindow != day then b.(dayWindow := day, dayCount := 0) else b;
    open.(dayCount := (open.dayCount + 1) % U32_RANGE)
  }

  /** The day is charged only if the minute granted the call. */
  function ChargeAt(policy: RouterPolicy, b: Budget, minute: U64, day: U64): (Budget, bool) {
    var m := ChargedMinute(b, minute);
    if m.minuteCount > policy.minuteBudget then (m, false)
    else (ChargedDay(m, day), ChargedDay(m, day).dayCount <= policy.dailyBudget)
  }

  function Charge(policy: RouterPolicy, b: Budget, wall: U64): (Budget, bool) {
    ChargeAt(policy, b, wall / 1000 / 60, wall / 1000 / 86_400)
  }

  function Apply(policy: RouterPolicy, s: Shared, e: Event): Shared {
    match e
    case Consulted(_, m) => s.(breakers := s.breakers[m := BreakerOf(s.breakers, m)])
    case Succeeded(_, m) => s.(breakers := s.breakers[m := CLOSED])
    case Failed(_, m, wall) =>
      s.(breakers := s.breakers[m := AfterFailure(policy, BreakerOf(s.breakers, m), wall)])
    case Proved(_, m, p, at) => s.(registry := WithSuccess(s.registry, m, p, at))
    case Missing(_, m, at) => s.(registry := WithoutModel(s.registry, m, at))
    case Listed(_, rows, ttl, at) => s.(registry := Discovered(rows, ttl, at))
    case Charged(_, wall) => s.(budget := Charge(policy, s.budget, wall).0)
  }

  function Replay(policy: RouterPolicy, s: Shared, trace: seq<Event>): Shared {
    if trace == [] then s
    else Apply(policy, Replay(policy, s, trace[..|trace| - 1]), trace[|trace| - 1])
  }

  // ----- The world one request walks through -----

  datatype Reply = Reply(delay: nat, outcome: Result<StructuredResponse, AiError>, meanwhile: seq<Event>)

  datatype Environment = Environment(
    reply: nat -> Reply,
    others: nat -> seq<Event>,
    wall: nat -> U64)

  datatype Answer = Answered(outcome: Result<StructuredResponse, AiError>) | TimedOut

  /** One provider call as the provider sees it. */
  datatype Call = Call(
    model: string,
    protocol: ApiProtocol,
    maxOutputTokens: U32,
    started: nat,
    ended: nat,
    answer: Answer)

  /** One step along the chain, with the shared state it met. */
  datatype Visit = Visit(model: string, seen: Shared, at: nat)

  datatype World = World(now: nat, shared: Shared, trace: seq<Event>, visits: seq<Visit>, calls: seq<Call>)

  /** One request once routed. */
  datatype Job = Job(
    id: nat,
    policy: RouterPolicy,
    task: string,
    chain: seq<string>,
    timeout: nat,
    deadline: nat,
    preference: seq<ApiProtocol>,
    pinned: Option<ApiProtocol>,
    maxOutputTokens: U32)

  function Heard(policy: RouterPolicy, w: World, events: seq<Event>): World {
    w.(shared := Replay(policy, w.shared, events), trace := w.trace + events)
  }

  function Noted(job: Job, w: World, e: Event): World {
    w.(shared := Apply(job.policy, w.shared, e), trace := w.trace + [e])
  }

  function NotedFailure(job: Job, env: Environment, w: World, model: string, e: AiError): World {
    if Counts(e) then Noted(job, w, Failed(job.id, model, env.wall(w.now))) else w
  }

  function NotedSuccess(job: Job, w: World, model: string, p: ApiProtocol): World {
    Noted(job, Noted(job, w, Succeeded(job.id, model)), Proved(job.id, model, p, w.now))
  }

  /** At most half the route timeout, never more than what remains. */
  function PerAttemptBudget(timeout: nat, remaining: nat): nat {
    Min(remaining, Max(timeout / 2, MILLISECOND))
  }

  function Attempt(job: Job, env: Environment, w: World, model: string, p: ApiProtocol): World {
    var budget := PerAttemptBudget(job.timeout, SaturatingSub(job.deadline, w.now));
    var reply := env.reply(|w.calls|);
    var answer := if reply.delay <= budget then Answered(reply.outcome) else TimedOut;
    var ended := w.now + Min(reply.delay, budget);
    var call := Call(model, p, job.maxOutputTokens, w.now, ended, answer);
    Heard(job.policy, w, reply.meanwhile).(now := ended, calls := w.calls + [call])
  }

  function LastAnswer(w: World): Answer
    requires w.calls != []
  {
    w.calls[|w.calls| - 1].answer
  }

  // ----- The protocols of a model -----

  function UnknownModel(model: string): ModelCapabilities {
    ModelCapabilities(model, true, true, true, false, false, true)
  }

  function Usable(caps: ModelCapabilities, recent: bool, ps: seq<ApiProtocol>): seq<ApiProtocol> {
    if ps == [] then []
    else (if caps.Supports(ps[0]) || !recent then [ps[0]] else []) + Usable(caps, recent, ps[1..])
  }

  function ProtocolsFor(job: Job, registry: Registry, now: nat, model: string): seq<ApiProtocol> {
    if job.pinned.Some? then [job.pinned.value]
    else
      var caps := Lookup(registry, model).GetOr(UnknownModel(model));
      var preferred := if job.preference == [] then caps.PreferredProtocols() else job.preference;
      Usable(caps, IsFresh(registry, now), preferred)
  }

  // ----- The walk -----

  /** How the protocols of one model, or the whole chain, ended. */
  datatype Ending =
    | Won(response: StructuredResponse, index: nat, attempted: seq<string>)
    | Expired
    | GaveUp(error: AiError, attempted: seq<string>)

  /** What one protocol of a model leads to. */
  datatype Step =
    | Settled(w: World, ending: Ending)
    | Onward(w: World, lastError: AiError, rejected: Option<AiError>)

  /** Where in the walk a model is being tried. */
  datatype Turn = Turn(index: nat, model: string, attempted: seq<string>)

  function Stamped(r: StructuredResponse, model: string, p: ApiProtocol): StructuredResponse {
    r.(protocol := Some(p), model := if r.model == [] then model else r.model)
  }

  /** What the answer to a call means for its model. */
  function Judged(job: Job, env: Environment, turn: Turn, after: World, p: ApiProtocol, lastError: AiError,
                  answer: Answer): Step
  {
    match answer
    case Answered(Ok(r)) =>
      Settled(NotedSuccess(job, after, turn.model, p), Won(Stamped(r, turn.model, p), turn.index, turn.attempted))
    case Answered(Err(e)) =>
      if IsProtocolRejection(e) then Onward(after, lastError, Some(e))
      else
        var known := if IsModelMissing(e) then Noted(job, after, Missing(job.id, turn.model, after.now)) else after;
        Settled(NotedFailure(job, env, known, turn.model, e), GaveUp(e, turn.attempted))
    case TimedOut =>
      if job.deadline <= after.now then Settled(after, Expired) else Onward(after, AiError.Timeout, None)
  }

  function TryProtocol(job: Job, env: Environment, turn: Turn, w: World, p: ApiProtocol, lastError: AiError): Step {
    var after := Attempt(job, env, w, turn.model, p);
    Judged(job, env, turn, after, p, lastError, LastAnswer(after))
  }

  type Trial = (World, ApiProtocol, AiError) -> Step

  function TryEach(trial: Trial, deadline: nat, w: World, ps: seq<ApiProtocol>, lastError: AiError,
                         rejected: Option<AiError>): Step
    decreases |ps|
  {
    if ps == [] then Onward(w, lastError, rejected)
    else if deadline <= w.now then Settled(w, Expired)
    else
      match trial(w, ps[0], lastError)
      case Settled(after, ending) => Settled(after, ending)
      case Onward(after, error, refusal) => TryEach(trial, deadline, after, ps[1..], error, refusal)
  }

  function TrialOf(job: Job, env: Environment, turn: Turn): Trial {
    (w, p, e) => TryProtocol(job, env, turn, w, p, e)
  }

  /** The protocols of one model; a rejection that nothing settled counts against the model. */
  function TryProtocols(job: Job, env: Environment, turn: Turn, w: World, ps: seq<ApiProtocol>, e: AiError)
    : (World, Ending)
  {
    match TryEach(TrialOf(job, env, turn), job.deadline, w, ps, e, None)
    case Settled(after, ending) => (after, ending)
    case Onward(after, _, Some(refusal)) =>
      (NotedFailure(job, env, after, turn.model, refusal), GaveUp(refusal, turn.attempted))
    case Onward(after, error, None) => (after, GaveUp(error, turn.attempted))
  }

  const NO_ATTEMPT := ProviderRejected("no models attempted")
  const NO_MODELS := ProviderRejected("no available models for task after registry filter")

  function NoProtocol(model: string, task: string): AiError {
    ProviderRejected("model " + model + " has no usable protocol for task " + task)
  }

  /** Arriving at a model: other requests have acted in the meantime. */
  function Arrived(job: Job, env: Environment, w: World, index: nat, model: string): World {
    var met := Heard(job.policy, w, env.others(index));
    met.(visits := met.visits + [Visit(model, met.shared, met.now)])
  }

  predicate Allows(v: Visit) {
    IsModelAllowed(v.seen.registry, v.model)
  }

  predicate Breaks(env: Environment, v: Visit) {
    IsCircuitOpen(v.seen.breakers, v.model, env.wall(v.at))
  }

  /** One model of the chain: skipped, without a usable protocol, or tried. */
  function VisitModel(job: Job, env: Environment, w: World, turn: Turn, lastError: AiError): (World, Ending) {
    var met := Arrived(job, env, w, turn.index, turn.model);
    var visit := met.visits[|met.visits| - 1];
    if !Allows(visit) then (met, GaveUp(lastError, turn.attempted))
    else
      var asked := Noted(job, met, Consulted(job.id, turn.model));
      if Breaks(env, visit) then (asked, GaveUp(AiError.CircuitOpen, turn.attempted))
      else
        var chosen := turn.(attempted := turn.attempted + [turn.model]);
        var ps := ProtocolsFor(job, asked.shared.registry, asked.now, turn.model);
        if ps == [] then (asked, GaveUp(NoProtocol(turn.model, job.task), chosen.attempted))
        else TryProtocols(job, env, chosen, asked, ps, lastError)
  }

  type Visitor = (World, Turn, AiError) -> (World, Ending)

  function WalkWith(visit: Visitor, chain: seq<string>, deadline: nat, w: World, index: nat,
                          attempted: seq<string>, lastError: AiError): (World, Ending)
    requires index <= |chain|
    decreases |chain| - index
  {
    if index == |chain| then (w, GaveUp(if attempted == [] then NO_MODELS else lastError, attempted))
    else if deadline <= w.now then (w, Expired)
    else
      var (after, ending) := visit(w, Turn(index, chain[index], attempted), lastError);
      if ending.GaveUp? then WalkWith(visit, chain, deadline, after, index + 1, ending.attempted, ending.error)
      else (after, ending)
  }

  function VisitorOf(job: Job, env: Environment): Visitor {
    (w, turn, e) => VisitModel(job, env, w, turn, e)
  }

  /** The walk only needs to know the visitor by name. */
  ghost predicate IsVisitor(visit: Visitor, job: Job, env: Environment) {
    forall w, turn, e {:trigger VisitModel(job, env, w, turn, e)} ::
      visit(w, turn, e) == VisitModel(job, env, w, turn, e)
  }

  function WalkChain(job: Job, env: Environment, w: World): (World, Ending) {
    WalkWith(VisitorOf(job, env), job.chain, job.deadline, w, 0, [], NO_ATTEMPT)
  }

  // ----- One request from end to end -----

  function ModelChain(primary: string, fallbacks: seq<string>): seq<string> {
    if fallbacks == [] then [primary]
    else
      var chain := ModelChain(primary, fallbacks[..|fallbacks| - 1]);
      var last := fallbacks[|fallbacks| - 1];
      if last in chain then chain else chain + [last]
  }

  function JobOf(id: nat, policy: RouterPolicy, route: TaskRoute, request: StructuredRequest, now: nat): Job {
    Job(
      id,
      policy,
      request.task,
      if request.model.Some? then [request.model.value] else ModelChain(route.primaryModel, route.fallbackModels),
      route.timeout,
      now + route.timeout,
      route.protocolPreference,
      request.protocol,
      Min(request.maxOutputTokens, route.maxOutputTokens))
  }

  function Start(s: Shared, now: nat): World {
    World(now, s, [], [], [])
  }

  /** A routed and charged request; the world keeps everything that happened on the way. */
  function Complete(job: Job, env: Environment, w: World): (World, Ending) {
    var wall := env.wall(w.now);
    var charged := Noted(job, w, Charged(job.id, wall));
    if Charge(job.policy, w.shared.budget, wall).1 then WalkChain(job, env, charged)
    else (charged, GaveUp(AiError.BudgetExhausted, []))
  }

  function ResultOf(request: StructuredRequest, route: TaskRoute, e: Ending): Result<RoutedCompletion, AiError> {
    match e
    case Won(r, index, attempted) => Ok(RoutedCompletion(r, request.task, route.routeVersion, attempted, index > 0))
    case Expired => Err(AiError.Timeout)
    case GaveUp(error, _) => Err(error)
  }

  class TaskRouter {
    const policy: RouterPolicy
    const routes: map<string, TaskRoute>
    const registry: ModelRegistry
    var breakers: map<string, Breaker>
    var budget: Budget

    ghost function View(): Shared
      reads this, registry
    {
      Shared(breakers, registry.inner, budget)
    }

    constructor (policy: RouterPolicy, routes: map<string, TaskRoute>, registry: ModelRegistry)
      ensures this.policy == policy && this.routes == routes && this.registry == registry
      ensures View() == Shared(map[], registry.inner, Budget(0, 0, 0, 0))
    {
      this.policy, this.routes, this.registry := policy, routes, registry;
      breakers, budget := map[], Budget(0, 0, 0, 0);
    }

    /** `before` is the world so far: whatever history led to the current shared state. */
    method StructuredCompletion(request: StructuredRequest, id: nat, available: bool, env: Environment, start: nat,
                                ghost before: World)
      returns (r: Result<RoutedCompletion, AiError>)
      requires before.shared == View() && before.now == start && before.calls == [] && before.visits == []
      modifies this, registry
      ensures !available ==> r == Err(AiError.Disabled) && View() == old(View())
      ensures available && request.task !in routes ==> r.Err? && r.error.Config? && View() == old(View())
      ensures available && request.task in routes && !routes[request.task].enabled ==>
                r == Err(AiError.Disabled) && View() == old(View())
      ensures available && request.task in routes && routes[request.task].enabled ==>
                var route := routes[request.task];
                var (w, ending) := Complete(JobOf(id, policy, route, request, start), env, before);
                View() == w.shared && r == ResultOf(request, route, ending)
    {
      if !available {
        return Err(AiError.Disabled);
      }
      if request.task !in routes {
        return Err(Config("no route configured for task " + request.task));
      }
      var route := routes[request.task];
      if !route.enabled {
        return Err(AiError.Disabled);
      }
      var chain;
      if request.model.Some? {
        chain := [request.model.value];
      } else {
        chain := Chain(route);
      }
      var job := JobOf(id, policy, route, request, start).(chain := chain);
      ghost var w := Noted(job, before, Charged(id, env.wall(start)));
      var granted := ConsumeBudget(env.wall(start));
      if !granted {
        return Err(AiError.BudgetExhausted);
      }
      var ending;
      ending, w := WalkModels(job, env, start, w, VisitorOf(job, env));
      r := ResultOf(request, route, ending);
    }

    /** Model after model until one wins, the deadline passes or the chain is used up. */
    method WalkModels(job: Job, env: Environment, start: nat, ghost before: World, ghost visit: Visitor)
      returns (ending: Ending, ghost w: World)
      requires job.policy == policy && IsVisitor(visit, job, env)
      requires before.now == start && before.calls == [] && before.shared == View()
      modifies this, registry
      ensures w.shared == View()
      ensures (w, ending) == WalkWith(visit, job.chain, job.deadline, before, 0, [], NO_ATTEMPT)
    {
      w := before;
      var now, calls := start, 0;
      var attempted: seq<string> := [];
      var lastError := NO_ATTEMPT;
      for index := 0 to |job.chain|
        invariant w.now == now && |w.calls| == calls && w.shared == View()
        invariant WalkWith(visit, job.chain, job.deadline, w, index, attempted, lastError)
               == WalkWith(visit, job.chain, job.deadline, before, 0, [], NO_ATTEMPT)
      {
        if now >= job.deadline {
          ending := Expired;
          return;
        }
        now, calls, ending, w :=
          VisitOne(job, env, Turn(index, job.chain[index], attempted), lastError, now, calls, w, visit);
        if !ending.GaveUp? {
          return;
        }
        attempted, lastError := ending.attempted, ending.error;
      }
      ending := GaveUp(if attempted == [] then NO_MODELS else lastError, attempted);
    }

    /** One turn of the model loop. */
    method VisitOne(job: Job, env: Environment, turn: Turn, lastError: AiError, start: nat, made: nat,
                    ghost before: World, ghost visit: Visitor)
      returns (now: nat, calls: nat, ending: Ending, ghost w: World)
      requires job.policy == policy && IsVisitor(visit, job, env)
      requires before.now == start && |before.calls| == made && before.shared == View()
      modifies this, registry
      ensures w.now == now && |w.calls| == calls && w.shared == View()
      ensures (w, ending) == visit(before, turn, lastError)
    {
      assert visit(before, turn, lastError) == VisitModel(job, env, before, turn, lastError);
      var model := turn.model;
      now, calls, w := start, made, Arrived(job, env, before, turn.index, model);
      Interleave(env.others(turn.index));
      if !IsModelAllowed(registry.inner, model) {
        ending := GaveUp(lastError, turn.attempted);
        return;
      }
      w := Noted(job, w, Consulted(job.id, model));
      var open := ModelCircuitOpen(job.id, model, env.wall(now));
      if open {
        ending := GaveUp(AiError.CircuitOpen, turn.attempted);
        return;
      }
      var chosen := turn.(attempted := turn.attempted + [model]);
      var protocols := ProtocolsForModel(job, model, now);
      if protocols == [] {
        ending := GaveUp(NoProtocol(model, job.task), chosen.attempted);
        return;
      }
      now, calls, ending, w := TryModel(job, env, chosen, protocols, lastError, now, calls, w);
    }

    /** Every usable protocol of one model until one of them settles the model's fate. */
    method TryModel(job: Job, env: Environment, turn: Turn, ps: seq<ApiProtocol>, error: AiError,
                    start: nat, made: nat, ghost before: World)
      returns (now: nat, calls: nat, ending: Ending, ghost w: World)
      requires job.policy == policy
      requires before.now == start && |before.calls| == made && before.shared == View()
      modifies this, registry
      ensures w.now == now && |w.calls| == calls && w.shared == View()
      ensures (w, ending) == TryProtocols(job, env, turn, before, ps, error)
    {
      now, calls, w := start, made, before;
      var lastError := error;
      var protocolError: Option<AiError> := None;
      ghost var trial := TrialOf(job, env, turn);
      for k := 0 to |ps|
        invariant w.now == now && |w.calls| == calls && w.shared == View()
        invariant TryEach(trial, job.deadline, w, ps[k..], lastError, protocolError)
               == TryEach(trial, job.deadline, before, ps, error, None)
      {
        assert ps[k..][1..] == ps[k + 1..];
        if now >= job.deadline {
          ending := Expired;
          return;
        }
        var settled: Option<Ending>;
        now, settled, lastError, protocolError, w := TryOne(job, env, turn, ps[k], lastError, now, calls, w);
        calls := calls + 1;
        if settled.Some? {
          ending := settled.value;
          return;
        }
      }
      if protocolError.Some? {
        w := NotedFailure(job, env, w, turn.model, protocolError.value);
        NoteModelFailure(job.id, turn.model, protocolError.value, env.wall(now));
        lastError := protocolError.value;
      }
      ending := GaveUp(lastError, turn.attempted);
    }

    /** One turn of the protocol loop. */
    method TryOne(job: Job, env: Environment, turn: Turn, p: ApiProtocol, error: AiError, start: nat, calls: nat,
                  ghost before: World)
      returns (now: nat, settled: Option<Ending>, lastError: AiError, protocolError: Option<AiError>, ghost w: World)
      requires job.policy == policy && start < job.deadline
      requires before.now == start && |before.calls| == calls && before.shared == View()
      modifies this, registry
      ensures w.now == now && |w.calls| == calls + 1 && w.shared == View()
      ensures TryProtocol(job, env, turn, before, p, error)
           == if settled.Some? then Settled(w, settled.value) else Onward(w, lastError, protocolError)
    {
      lastError, protocolError, settled := error, None, None;
      var answer;
      now, answer, w := CallProvider(job, env, turn.model, p, start, calls, before);
      match answer {
        case TimedOut =>
          lastError := AiError.Timeout;
          if now >= job.deadline {
            settled := Some(Expired);
          }
        case Answered(Ok(response)) =>
          w := NotedSuccess(job, w, turn.model, p);
          NoteModelSuccess(job.id, turn.model);
          registry.RecordProtocolSuccess(turn.model, p, now);
          settled := Some(Won(Stamped(response, turn.model, p), turn.index, turn.attempted));
        case Answered(Err(e)) =>
          if IsProtocolRejection(e) {
            protocolError := Some(e);
          } else {
            if IsModelMissing(e) {
              w := Noted(job, w, Missing(job.id, turn.model, now));
              registry.MarkUnavailable(turn.model, now);
            }
            w := NotedFailure(job, env, w, turn.model, e);
            NoteModelFailure(job.id, turn.model, e, env.wall(now));
            settled := Some(GaveUp(e, turn.attempted));
          }
      }
    }

    /** Await one call under its own time limit, while other requests go on. */
    method CallProvider(job: Job, env: Environment, model: string, p: ApiProtocol, start: nat, calls: nat,
                        ghost before: World)
      returns (now: nat, answer: Answer, ghost w: World)
      requires job.policy == policy && start < job.deadline
      requires before.now == start && |before.calls| == calls && before.shared == View()
      modifies this, registry
      ensures w == Attempt(job, env, before, model, p)
      ensures w.now == now && w.shared == View() && answer == LastAnswer(w)
    {
      var budget := PerAttemptBudget(job.timeout, SaturatingSub(job.deadline, start));
      var reply := env.reply(calls);
      w := Attempt(job, env, before, model, p);
      Interleave(reply.meanwhile);
      if reply.delay > budget {
        return start + budget, TimedOut, w;
      }
      return start + reply.delay, Answered(reply.outcome), w;
    }

    /** The primary model, then every fallback that is not yet in the chain. */
    method Chain(route: TaskRoute) returns (chain: seq<string>)
      ensures chain == ModelChain(route.primaryModel, route.fallbackModels)
    {
      chain := [route.primaryModel];
      for i := 0 to |route.fallbackModels|
        invariant chain == ModelChain(route.primaryModel, route.fallbackModels[..i])
      {
        assert route.fallbackModels[..i + 1][..i] == route.fallbackModels[..i];
        if route.fallbackModels[i] !in chain {
          chain := chain + [route.fallbackModels[i]];
        }
      }
      assert route.fallbackModels[..|route.fallbackModels|] == route.fallbackModels;
    }

    method ProtocolsForModel(job: Job, model: string, now: nat) returns (ps: seq<ApiProtocol>)
      ensures ps == ProtocolsFor(job, registry.inner, now, model)
    {
      if job.pinned.Some? {
        return [job.pinned.value];
      }
      var caps := Lookup(registry.inner, model).GetOr(UnknownModel(model));
      var preferred := if job.preference == [] then caps.PreferredProtocols() else job.preference;
      ps := Usable(caps, IsFresh(registry.inner, now), preferred);
    }

    method ModelCircuitOpen(id: nat, model: string, wall: U64) returns (open: bool)
      modifies this`breakers
      ensures View() == Apply(policy, old(View()), Consulted(id, model))
      ensures open == IsCircuitOpen(old(breakers), model, wall)
    {
      if model !in breakers {
        breakers := breakers[model := CLOSED];
      }
      open := breakers[model].openUntil > wall;
    }

    method NoteModelSuccess(id: nat, model: string)
      modifies this`breakers
      ensures View() == Apply(policy, old(View()), Succeeded(id, model))
    {
      breakers := breakers[model := Breaker(0, 0)];
    }

    method NoteModelFailure(id: nat, model: string, error: AiError, wall: U64)
      modifies this`breakers
      ensures !Counts(error) ==> View() == old(View())
      ensures Counts(error) ==> View() == Apply(policy, old(View()), Failed(id, model, wall))
    {
      if !Counts(error) {
        return;
      }
      var state := if model in breakers then breakers[model] else CLOSED;
      var failures := (state.failures + 1) % U32_RANGE;
      state := state.(failures := failures);
      if failures >= policy.failureThreshold {
        state := state.(openUntil := Min(wall + policy.circuitOpenMs, U64_MAX));
      }
      breakers := breakers[model := state];
    }

    method ConsumeBudget(wall: U64) returns (granted: bool)
      modifies this`budget
      ensures (budget, granted) == Charge(policy, old(budget), wall)
    {
      var seconds := wall / 1000;
      var minute := seconds / 60;
      var day := seconds / 86_400;
      if budget.minuteWindow != minute {
        budget := budget.(minuteWindow := minute, minuteCount := 0);
      }
      budget := budget.(minuteCount := (budget.minuteCount + 1) % U32_RANGE);
      if budget.minuteCount > policy.minuteBudget {
        return false;
      }
      if budget.dayWindow != day {
        budget := budget.(dayWindow := day, dayCount := 0);
      }
      budget := budget.(dayCount := (budget.dayCount + 1) % U32_RANGE);
      granted := budget.dayCount <= policy.dailyBudget;
    }

    /** Other requests take their steps. */
    method Interleave(events: seq<Event>)
      modifies this, registry
      ensures View() == Replay(policy, old(View()), events)
    {
      for i := 0 to |events|
        invariant View() == Replay(policy, old(View()), events[..i])
      {
        assert events[..i + 1][..i] == events[..i];
        match events[i] {
          case Consulted(who, m) =>
            var _ := ModelCircuitOpen(who, m, 0);
          case Succeeded(who, m) =>
            NoteModelSuccess(who, m);
          case Failed(who, m, wall) =>
            NoteModelFailure(who, m, AiError.Timeout, wall);
          case Proved(_, m, p, at) =>
            registry.RecordProtocolSuccess(m, p, at);
          case Missing(_, m, at) =>
            registry.MarkUnavailable(m, at);
          case Listed(_, rows, ttl, at) =>
            registry.ReplaceModels(rows, ttl, at);
          case Charged(_, wall) =>
            var _ := ConsumeBudget(wall);
        }
      }
      assert events[..|events|] == events;
    }
  }
}
