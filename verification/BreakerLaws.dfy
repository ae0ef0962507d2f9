/** What an open breaker says about the requests that ran before. */
module BreakerLaws {
  import opened Outcomes
  import opened MachineInts
  import opened AiErrors
  import opened ModelRegistries
  import opened TaskRouting
  import opened TaskRoutingLaws

  // ----- Traces -----

  /** Whether an event touches the breaker of a model. */
  predicate Concerns(e: Event, model: string) {
    (e.Consulted? || e.Succeeded? || e.Failed?) && e.model == model
  }

  function About(trace: seq<Event>, model: string): seq<Event> {
    if trace == [] then []
    else
      var last := trace[|trace| - 1];
      About(trace[..|trace| - 1], model) + if Concerns(last, model) then [last] else []
  }

  lemma ApplyIsLocal(policy: RouterPolicy, s: Shared, t: Shared, e: Event, model: string)
    requires BreakerOf(s.breakers, model) == BreakerOf(t.breakers, model)
    ensures BreakerOf(Apply(policy, s, e).breakers, model)
         == BreakerOf(if Concerns(e, model) then Apply(policy, t, e).breakers else t.breakers, model)
  {
  }

  /** A breaker depends on the events about its own model and on nothing else. */
  lemma {:induction false} ModelsAreIsolated(policy: RouterPolicy, s: Shared, trace: seq<Event>, model: string)
    ensures BreakerOf(Replay(policy, s, trace).breakers, model)
         == BreakerOf(Replay(policy, s, About(trace, model)).breakers, model)
  {
    if trace != [] {
      var before, last := trace[..|trace| - 1], trace[|trace| - 1];
      ModelsAreIsolated(policy, s, before, model);
      ApplyIsLocal(policy, Replay(policy, s, before), Replay(policy, s, About(before, model)), last, model);
      var own := About(before, model);
      if Concerns(last, model) {
        assert (own + [last])[..|own|] == own;
      } else {
        assert own + [] == own;
      }
    }
  }

  /** The counted failures of a model since its last success. */
  function FailuresSince(trace: seq<Event>, model: string): nat {
    if trace == [] then 0
    else
      var before, last := trace[..|trace| - 1], trace[|trace| - 1];
      if last.Succeeded? && last.model == model then 0
      else FailuresSince(before, model) + if last.Failed? && last.model == model then 1 else 0
  }

  /** The requests behind those failures. */
  function FailedBy(trace: seq<Event>, model: string): set<nat> {
    if trace == [] then {}
    else
      var before, last := trace[..|trace| - 1], trace[|trace| - 1];
      if last.Succeeded? && last.model == model then {}
      else FailedBy(before, model) + if last.Failed? && last.model == model then {last.who} else {}
  }

  /** How often one request counted a failure against one model. */
  function Blames(trace: seq<Event>, who: nat, model: string): nat {
    if trace == [] then 0
    else
      var last := trace[|trace| - 1];
      Blames(trace[..|trace| - 1], who, model) + if last.Failed? && last.model == model && last.who == who then 1 else 0
  }

  lemma {:induction false} BreakerCountsFailures(policy: RouterPolicy, s: Shared, trace: seq<Event>, model: string)
    requires BreakerOf(s.breakers, model) == CLOSED
    ensures var b := BreakerOf(Replay(policy, s, trace).breakers, model);
            && b.failures <= FailuresSince(trace, model)
            && (b.openUntil != 0 ==> FailuresSince(trace, model) >= Max(1, policy.failureThreshold))
  {
    if trace != [] {
      BreakerCountsFailures(policy, s, trace[..|trace| - 1], model);
    }
  }

  /** The counter is exact, and a closing time is set exactly from the threshold on. */
  ghost predicate Exact(policy: RouterPolicy, b: Breaker, failures: nat) {
    b.failures == failures && (b.openUntil != 0 <==> failures >= Max(1, policy.failureThreshold))
  }

  lemma FailureStaysExact(policy: RouterPolicy, b: Breaker, failures: nat, wall: U64)
    requires Exact(policy, b, failures) && failures + 1 < U32_RANGE && policy.circuitOpenMs > 0
    ensures Exact(policy, AfterFailure(policy, b, wall), failures + 1)
  {
  }

  /** Short of four billion failures in a row, a breaker holds a closing time exactly from the threshold on. */
  lemma {:induction false} BreakerTripsIff(policy: RouterPolicy, s: Shared, trace: seq<Event>, model: string)
    requires BreakerOf(s.breakers, model) == CLOSED && policy.circuitOpenMs > 0
    requires FailuresSince(trace, model) < U32_RANGE
    ensures Exact(policy, BreakerOf(Replay(policy, s, trace).breakers, model), FailuresSince(trace, model))
  {
    if trace != [] {
      var before, last := trace[..|trace| - 1], trace[|trace| - 1];
      if !(last.Succeeded? && last.model == model) {
        var state := Replay(policy, s, before);
        BreakerTripsIff(policy, s, before, model);
        if last.Failed? && last.model == model {
          FailureStaysExact(policy, BreakerOf(state.breakers, model), FailuresSince(before, model), last.wall);
        }
      }
    }
  }

  lemma {:induction false} BlamesOfFailedBy(trace: seq<Event>, who: nat, model: string)
    requires who in FailedBy(trace, model)
    ensures Blames(trace, who, model) >= 1
  {
    var last := trace[|trace| - 1];
    if !(last.Failed? && last.model == model && last.who == who) {
      BlamesOfFailedBy(trace[..|trace| - 1], who, model);
    }
  }

  lemma {:induction false} FailuresAreDistinct(trace: seq<Event>, model: string)
    requires forall who :: Blames(trace, who, model) <= 1
    ensures |FailedBy(trace, model)| == FailuresSince(trace, model)
  {
    if trace != [] {
      var before, last := trace[..|trace| - 1], trace[|trace| - 1];
      forall who ensures Blames(before, who, model) <= 1 {
        assert Blames(trace, who, model) <= 1;
      }
      FailuresAreDistinct(before, model);
      if last.Failed? && last.model == model {
        if last.who in FailedBy(before, model) {
          BlamesOfFailedBy(before, last.who, model);
          assert Blames(trace, last.who, model) >= 2;
        }
      }
    }
  }

  /** When no request blames a model twice, an open breaker means that many distinct requests failed. */
  lemma OpenBreakerMeansDistinctFailures(policy: RouterPolicy, s: Shared, trace: seq<Event>, model: string)
    requires BreakerOf(s.breakers, model) == CLOSED
    requires forall who :: Blames(trace, who, model) <= 1
    ensures BreakerOf(Replay(policy, s, trace).breakers, model).openUntil != 0 ==>
              |FailedBy(trace, model)| >= Max(1, policy.failureThreshold)
  {
    BreakerCountsFailures(policy, s, trace, model);
    FailuresAreDistinct(trace, model);
  }

  // ----- What one request adds to the trace -----

  /** What the others do is not signed with this request's name. */
  ghost predicate Foreign(env: Environment, id: nat) {
    && (forall k: nat, e :: e in env.others(k) ==> e.who != id)
    && (forall k: nat, e :: e in env.reply(k).meanwhile ==> e.who != id)
  }

  lemma {:induction false} BlamesSplit(a: seq<Event>, b: seq<Event>, who: nat, model: string)
    ensures Blames(a + b, who, model) == Blames(a, who, model) + Blames(b, who, model)
  {
    if b == [] {
      assert a + b == a;
    } else {
      assert (a + b)[..|a + b| - 1] == a + b[..|b| - 1];
      BlamesSplit(a, b[..|b| - 1], who, model);
    }
  }

  lemma {:induction false} ForeignEventsBlameNobody(events: seq<Event>, who: nat, model: string)
    requires forall e <- events :: e.who != who
    ensures Blames(events, who, model) == 0
  {
    if events != [] {
      ForeignEventsBlameNobody(events[..|events| - 1], who, model);
    }
  }

  /** What this request has held against a model so far. */
  function Held(job: Job, w: World, model: string): nat {
    Blames(w.trace, job.id, model)
  }

  lemma HeardHolds(job: Job, w: World, events: seq<Event>, model: string)
    requires forall e <- events :: e.who != job.id
    ensures Held(job, Heard(job.policy, w, events), model) == Held(job, w, model)
  {
    BlamesSplit(w.trace, events, job.id, model);
    ForeignEventsBlameNobody(events, job.id, model);
  }

  lemma NotedHolds(job: Job, w: World, e: Event, model: string)
    ensures Held(job, Noted(job, w, e), model)
         == Held(job, w, model) + if e.Failed? && e.model == model && e.who == job.id then 1 else 0
  {
    assert (w.trace + [e])[..|w.trace|] == w.trace;
  }

  /** The error that the last of the calls past `mark` was answered with, if it was one to this model. */
  function Refusal(w: World, mark: nat, model: string): Option<AiError> {
    if |w.calls| <= mark then None
    else
      var last := w.calls[|w.calls| - 1];
      if last.model == model && last.answer.Answered? && last.answer.outcome.Err? then Some(last.answer.outcome.error)
      else None
  }

  /** Whether a visit that ended so was held against its model. */
  predicate Blamed(w: World, ending: Ending, mark: nat, model: string) {
    ending.GaveUp? && Refusal(w, mark, model).Some? && Counts(Refusal(w, mark, model).value)
  }

  lemma NotedFailureHolds(job: Job, env: Environment, w: World, m: string, e: AiError, model: string)
    ensures Held(job, NotedFailure(job, env, w, m, e), model)
         == Held(job, w, model) + if Counts(e) && m == model then 1 else 0
  {
    NotedHolds(job, w, Failed(job.id, m, env.wall(w.now)), model);
  }

  lemma NotedSuccessHolds(job: Job, w: World, m: string, p: ApiProtocol, model: string)
    ensures Held(job, NotedSuccess(job, w, m, p), model) == Held(job, w, model)
  {
    NotedHolds(job, w, Succeeded(job.id, m), model);
    NotedHolds(job, Noted(job, w, Succeeded(job.id, m)), Proved(job.id, m, p, w.now), model);
  }

  lemma AttemptHolds(job: Job, env: Environment, w: World, m: string, p: ApiProtocol, model: string)
    requires Foreign(env, job.id)
    ensures Held(job, Attempt(job, env, w, m, p), model) == Held(job, w, model)
  {
    HeardHolds(job, w, env.reply(|w.calls|).meanwhile, model);
  }

  lemma JudgedHolds(job: Job, env: Environment, turn: Turn, after: World, p: ApiProtocol, e: AiError, answer: Answer,
                    model: string)
    ensures var s := Judged(job, env, turn, after, p, e, answer);
            && s.w.calls == after.calls
            && Held(job, s.w, model) ==
               Held(job, after, model) + (
                 if turn.model == model && s.Settled? && s.ending.GaveUp? && Counts(s.ending.error) then 1 else 0)
            && (s.Onward? ==> s.rejected == if answer.Answered? then Some(answer.outcome.error) else None)
            && (s.Settled? && s.ending.GaveUp? ==> answer == Answered(Err(s.ending.error)))
  {
    match answer
    case TimedOut =>
    case Answered(Ok(_)) => NotedSuccessHolds(job, after, turn.model, p, model);
    case Answered(Err(x)) => KnownFailureHolds(job, env, after, turn.model, x, model);
  }

  lemma KnownFailureHolds(job: Job, env: Environment, w: World, m: string, x: AiError, model: string)
    ensures var known := if IsModelMissing(x) then Noted(job, w, Missing(job.id, m, w.now)) else w;
            var after := NotedFailure(job, env, known, m, x);
            && after.calls == w.calls
            && Held(job, after, model) == Held(job, w, model) + if Counts(x) && m == model then 1 else 0
  {
    NotedHolds(job, w, Missing(job.id, m, w.now), model);
    NotedFailureHolds(job, env, w, m, x, model);
    NotedFailureHolds(job, env, Noted(job, w, Missing(job.id, m, w.now)), m, x, model);
  }

  /** One call holds a failure against its model exactly when it settles the model with a counted error. */
  lemma StepHolds(job: Job, env: Environment, turn: Turn, w: World, p: ApiProtocol, e: AiError, mark: nat,
      model: string)
    requires Foreign(env, job.id) && mark <= |w.calls|
    ensures var s := TryProtocol(job, env, turn, w, p, e);
            && (s.Settled? ==>
                  Held(job, s.w, model) ==
                  Held(job, w, model) + if turn.model == model && Blamed(s.w, s.ending, mark, model) then 1 else 0)
            && (s.Onward? ==>
                  && Held(job, s.w, model) == Held(job, w, model)
                  && s.rejected == Refusal(s.w, mark, turn.model))
  {
    AttemptHolds(job, env, w, turn.model, p, model);
    var after := Attempt(job, env, w, turn.model, p);
    JudgedHolds(job, env, turn, after, p, e, LastAnswer(after), model);
    RefusalIsLast(after, mark, turn.model);
    var s := Judged(job, env, turn, after, p, e, LastAnswer(after));
    SameCallsSameRefusal(after, s.w, mark, turn.model);
  }

  lemma RefusalIsLast(w: World, mark: nat, model: string)
    requires mark < |w.calls| && w.calls[|w.calls| - 1].model == model
    ensures Refusal(w, mark, model) ==
              match LastAnswer(w)
              case Answered(Err(e)) => Some(e)
              case _ => None
  {
  }

  lemma SameCallsSameRefusal(v: World, w: World, mark: nat, model: string)
    requires v.calls == w.calls
    ensures Refusal(v, mark, model) == Refusal(w, mark, model)
  {
  }

  ghost function Unblamed(job: Job, turn: Turn, mark: nat, held: nat, model: string): Midway {
    (w: World, ps, e, r) => mark <= |w.calls| && Held(job, w, model) == held && r == Refusal(w, mark, turn.model)
  }

  ghost function BlamedStep(job: Job, turn: Turn, mark: nat, held: nat, model: string): Step -> bool {
    (s: Step) =>
      && mark <= |s.w.calls|
      && if s.Onward? then Held(job, s.w, model) == held && s.rejected == Refusal(s.w, mark, turn.model)
         else Held(job, s.w, model) == held + if turn.model == model && Blamed(s.w, s.ending, mark, model) then 1 else 0
  }

  lemma TryStaysUnblamed(job: Job, env: Environment, turn: Turn, mark: nat, held: nat, model: string,
                         trial: Trial, w: World, ps: seq<ApiProtocol>, e: AiError, r: Option<AiError>)
    requires Foreign(env, job.id) && IsTrial(trial, job, env, turn)
    ensures TryRule(trial, job.deadline, Unblamed(job, turn, mark, held, model),
                    BlamedStep(job, turn, mark, held, model), w, ps, e, r)
  {
    if ps != [] && mark <= |w.calls| {
      StepHolds(job, env, turn, w, ps[0], e, mark, model);
      StepMakesOneCall(job, env, turn, w, ps[0], e);
    }
  }

  lemma TryEachHolds(job: Job, env: Environment, turn: Turn, w: World, ps: seq<ApiProtocol>, e: AiError, model: string)
    requires Foreign(env, job.id)
    ensures var s := TryEach(TrialOf(job, env, turn), job.deadline, w, ps, e, None);
            BlamedStep(job, turn, |w.calls|, Held(job, w, model), model)(s)
  {
    var mark, held, trial := |w.calls|, Held(job, w, model), TrialOf(job, env, turn);
    var inv, done := Unblamed(job, turn, mark, held, model), BlamedStep(job, turn, mark, held, model);
    forall v, qs, e, r ensures TryRule(trial, job.deadline, inv, done, v, qs, e, r) {
      TryStaysUnblamed(job, env, turn, mark, held, model, trial, v, qs, e, r);
    }
    assert Refusal(w, mark, turn.model) == None;
    TryInduction(trial, job.deadline, inv, done, w, ps, e, None);
  }

  lemma TryHolds(job: Job, env: Environment, turn: Turn, w: World, ps: seq<ApiProtocol>, e: AiError, model: string)
    requires Foreign(env, job.id)
    ensures var (after, ending) := TryProtocols(job, env, turn, w, ps, e);
            && |w.calls| <= |after.calls|
            && Held(job, after, model) ==
                 Held(job, w, model) + if turn.model == model && Blamed(after, ending, |w.calls|, model) then 1 else 0
  {
    TryEachHolds(job, env, turn, w, ps, e, model);
    var s := TryEach(TrialOf(job, env, turn), job.deadline, w, ps, e, None);
    if s.Onward? && s.rejected.Some? {
      NotedFailureHolds(job, env, s.w, turn.model, s.rejected.value, model);
      SameCallsSameRefusal(s.w, NotedFailure(job, env, s.w, turn.model, s.rejected.value), |w.calls|, turn.model);
    }
  }

  /**
    A visit holds at most one failure against its own model and none against another, and
    exactly when the model was given up on after a counted error as its last answer: a
    model that was only slow, or whose last call was cut off, keeps its record.
   */
  lemma VisitHolds(job: Job, env: Environment, w: World, turn: Turn, e: AiError, model: string)
    requires Foreign(env, job.id)
    ensures var (after, ending) := VisitModel(job, env, w, turn, e);
            && |w.calls| <= |after.calls|
            && Held(job, after, model) ==
                 Held(job, w, model) + if turn.model == model && Blamed(after, ending, |w.calls|, model) then 1 else 0
  {
    HeardHolds(job, w, env.others(turn.index), model);
    var met := Arrived(job, env, w, turn.index, turn.model);
    var asked := Noted(job, met, Consulted(job.id, turn.model));
    NotedHolds(job, met, Consulted(job.id, turn.model), model);
    var ps := ProtocolsFor(job, asked.shared.registry, asked.now, turn.model);
    TryHolds(job, env, turn.(attempted := turn.attempted + [turn.model]), asked, ps, e, model);
  }

  // ----- What one request adds, over its whole chain -----

  /** At most one failure for a model already visited, none for the others. */
  ghost predicate BlamedOnce(job: Job, w: World, i: nat, model: string) {
    i <= |job.chain| && Held(job, w, model) <= if model in job.chain[..i] then 1 else 0
  }

  ghost function OnceSoFar(job: Job, model: string): Along {
    (w, i: nat, attempted, e) => BlamedOnce(job, w, i, model)
  }

  ghost function OnceInAll(job: Job, model: string): AtEnd {
    (w, ending) => Held(job, w, model) <= 1
  }

  lemma WalkBlamesOnce(job: Job, env: Environment, visit: Visitor, w: World, i: nat, attempted: seq<string>, e: AiError,
                       model: string)
    requires Foreign(env, job.id) && Distinct(job.chain) && IsVisitor(visit, job, env)
    ensures WalkRule(visit, job.chain, job.deadline, OnceSoFar(job, model), OnceInAll(job, model), w, i, attempted, e)
  {
    if i < |job.chain| {
      VisitHolds(job, env, w, Turn(i, job.chain[i], attempted), e, model);
      assert job.chain[..i + 1] == job.chain[..i] + [job.chain[i]];
      assert job.chain[i] !in job.chain[..i];
    }
  }

  /** Whatever mix of rejections, errors and timeouts it meets, a request blames no model twice. */
  lemma OneRequestBlamesAModelOnce(job: Job, env: Environment, w: World, model: string)
    requires Foreign(env, job.id) && Distinct(job.chain)
    requires Blames(w.trace, job.id, model) == 0
    ensures Blames(Complete(job, env, w).0.trace, job.id, model) <= 1
  {
    var charged := Noted(job, w, Charged(job.id, env.wall(w.now)));
    NotedHolds(job, w, Charged(job.id, env.wall(w.now)), model);
    var visit, inv, done := VisitorOf(job, env), OnceSoFar(job, model), OnceInAll(job, model);
    forall x, i: nat, attempted, e ensures WalkRule(visit, job.chain, job.deadline, inv, done, x, i, attempted, e) {
      WalkBlamesOnce(job, env, visit, x, i, attempted, e, model);
    }
    assert BlamedOnce(job, charged, 0, model);
    WalkInduction(visit, job.chain, job.deadline, inv, done, charged, 0, [], NO_ATTEMPT);
  }

  // ----- Timeouts -----

  ghost predicate OnlyTimeouts(calls: seq<Call>, model: string) {
    forall c <- calls :: c.model == model ==> c.answer.TimedOut?
  }

  ghost predicate PatientSoFar(job: Job, w: World, model: string) {
    Held(job, w, model) == 0 || !OnlyTimeouts(w.calls, model)
  }

  ghost function PatienceKept(job: Job, model: string): Along {
    (w, i, attempted, e) => PatientSoFar(job, w, model)
  }

  ghost function PatienceShown(job: Job, model: string): AtEnd {
    (w, ending) => PatientSoFar(job, w, model)
  }

  lemma WalkIsPatient(job: Job, env: Environment, visit: Visitor, w: World, i: nat, attempted: seq<string>, e: AiError,
                      model: string)
    requires Foreign(env, job.id) && IsVisitor(visit, job, env)
    ensures WalkRule(visit, job.chain, job.deadline, PatienceKept(job, model), PatienceShown(job, model),
        w, i, attempted, e)
  {
    if i < |job.chain| {
      var turn := Turn(i, job.chain[i], attempted);
      VisitHolds(job, env, w, turn, e, model);
      VisitKeepsCalls(job, env, w, turn, e);
      var (after, ending) := VisitModel(job, env, w, turn, e);
      if turn.model == model && Blamed(after, ending, |w.calls|, model) {
        assert after.calls[|after.calls| - 1] in after.calls;
      } else if !OnlyTimeouts(w.calls, model) {
        var c :| c in w.calls && c.model == model && !c.answer.TimedOut?;
        assert c in after.calls;
      }
    }
  }

  ghost function CallsKept(calls: seq<Call>): Midway {
    (w: World, ps, e, r) => calls <= w.calls
  }

  lemma VisitKeepsCalls(job: Job, env: Environment, w: World, turn: Turn, e: AiError)
    ensures w.calls <= VisitModel(job, env, w, turn, e).0.calls
  {
    var asked := Noted(job, Arrived(job, env, w, turn.index, turn.model), Consulted(job.id, turn.model));
    var ps := ProtocolsFor(job, asked.shared.registry, asked.now, turn.model);
    var chosen := turn.(attempted := turn.attempted + [turn.model]);
    var trial, done := TrialOf(job, env, chosen), (s: Step) => w.calls <= s.w.calls;
    forall v, qs, e, r ensures TryRule(trial, job.deadline, CallsKept(w.calls), done, v, qs, e, r) {
      if qs != [] {
        StepMakesOneCall(job, env, chosen, v, qs[0], e);
      }
    }
    TryInduction(trial, job.deadline, CallsKept(w.calls), done, asked, ps, e, None);
  }

  /** A model that only ever ran out of its own time is not blamed at all. */
  lemma TimeoutsAreNotBlamed(job: Job, env: Environment, w: World, model: string)
    requires Foreign(env, job.id) && Blames(w.trace, job.id, model) == 0
    ensures var after := Complete(job, env, w).0;
            OnlyTimeouts(after.calls, model) ==> Blames(after.trace, job.id, model) == 0
  {
    var charged := Noted(job, w, Charged(job.id, env.wall(w.now)));
    NotedHolds(job, w, Charged(job.id, env.wall(w.now)), model);
    var visit, inv, done := VisitorOf(job, env), PatienceKept(job, model), PatienceShown(job, model);
    forall x, i: nat, attempted, e ensures WalkRule(visit, job.chain, job.deadline, inv, done, x, i, attempted, e) {
      WalkIsPatient(job, env, visit, x, i, attempted, e, model);
    }
    WalkInduction(visit, job.chain, job.deadline, inv, done, charged, 0, [], NO_ATTEMPT);
  }

  // ----- What a request does to the trace -----

  /** A property of the shared state and the trace that led to it. */
  type OfTrace = (Shared, seq<Event>) -> bool

  ghost predicate EventRule(policy: RouterPolicy, inv: OfTrace, s: Shared, trace: seq<Event>, e: Event) {
    inv(s, trace) ==> inv(Apply(policy, s, e), trace + [e])
  }

  ghost predicate OthersRule(policy: RouterPolicy, inv: OfTrace, s: Shared, trace: seq<Event>, events: seq<Event>) {
    inv(s, trace) ==> inv(Replay(policy, s, events), trace + events)
  }

  /** Kept by every event of the request and by whatever the others do. */
  ghost predicate Survives(job: Job, env: Environment, inv: OfTrace) {
    && (forall s, t, e: Event :: e.who == job.id ==> EventRule(job.policy, inv, s, t, e))
    && (forall s, t, k :: OthersRule(job.policy, inv, s, t, env.others(k)))
    && (forall s, t, k :: OthersRule(job.policy, inv, s, t, env.reply(k).meanwhile))
  }

  ghost predicate Holds(inv: OfTrace, w: World) {
    inv(w.shared, w.trace)
  }

  lemma NotedKeeps(job: Job, env: Environment, inv: OfTrace, w: World, e: Event)
    requires Survives(job, env, inv) && Holds(inv, w) && e.who == job.id
    ensures Holds(inv, Noted(job, w, e))
  {
    assert EventRule(job.policy, inv, w.shared, w.trace, e);
  }

  lemma JudgedKeeps(job: Job, env: Environment, turn: Turn, w: World, p: ApiProtocol, e: AiError, answer: Answer,
                    inv: OfTrace)
    requires Survives(job, env, inv) && Holds(inv, w)
    ensures Holds(inv, Judged(job, env, turn, w, p, e, answer).w)
  {
    var missing := Noted(job, w, Missing(job.id, turn.model, w.now));
    NotedKeeps(job, env, inv, w, Missing(job.id, turn.model, w.now));
    NotedKeeps(job, env, inv, missing, Failed(job.id, turn.model, env.wall(w.now)));
    NotedKeeps(job, env, inv, w, Failed(job.id, turn.model, env.wall(w.now)));
    NotedKeeps(job, env, inv, w, Succeeded(job.id, turn.model));
    NotedKeeps(job, env, inv, Noted(job, w, Succeeded(job.id, turn.model)), Proved(job.id, turn.model, p, w.now));
  }

  lemma AttemptKeeps(job: Job, env: Environment, w: World, model: string, p: ApiProtocol, inv: OfTrace)
    requires Survives(job, env, inv) && Holds(inv, w)
    ensures Holds(inv, Attempt(job, env, w, model, p))
  {
    assert OthersRule(job.policy, inv, w.shared, w.trace, env.reply(|w.calls|).meanwhile);
  }

  ghost function HoldsMidway(inv: OfTrace): Midway {
    (w, ps, e, r) => Holds(inv, w)
  }

  ghost function HoldsAfterStep(inv: OfTrace): Step -> bool {
    (s: Step) => Holds(inv, s.w)
  }

  lemma TryKeeps(job: Job, env: Environment, turn: Turn, w: World, ps: seq<ApiProtocol>, e: AiError, inv: OfTrace)
    requires Survives(job, env, inv) && Holds(inv, w)
    ensures Holds(inv, TryProtocols(job, env, turn, w, ps, e).0)
  {
    var trial, midway, done := TrialOf(job, env, turn), HoldsMidway(inv), HoldsAfterStep(inv);
    forall v, qs, e, r ensures TryRule(trial, job.deadline, midway, done, v, qs, e, r) {
      if qs != [] && Holds(inv, v) {
        AttemptKeeps(job, env, v, turn.model, qs[0], inv);
        var after := Attempt(job, env, v, turn.model, qs[0]);
        JudgedKeeps(job, env, turn, after, qs[0], e, LastAnswer(after), inv);
      }
    }
    TryInduction(trial, job.deadline, midway, done, w, ps, e, None);
    var s := TryEach(trial, job.deadline, w, ps, e, None);
    NotedKeeps(job, env, inv, s.w, Failed(job.id, turn.model, env.wall(s.w.now)));
  }

  lemma VisitKeeps(job: Job, env: Environment, w: World, turn: Turn, e: AiError, inv: OfTrace)
    requires Survives(job, env, inv) && Holds(inv, w)
    ensures Holds(inv, VisitModel(job, env, w, turn, e).0)
  {
    assert OthersRule(job.policy, inv, w.shared, w.trace, env.others(turn.index));
    var met := Arrived(job, env, w, turn.index, turn.model);
    var asked := Noted(job, met, Consulted(job.id, turn.model));
    NotedKeeps(job, env, inv, met, Consulted(job.id, turn.model));
    var ps := ProtocolsFor(job, asked.shared.registry, asked.now, turn.model);
    TryKeeps(job, env, turn.(attempted := turn.attempted + [turn.model]), asked, ps, e, inv);
  }

  ghost function HoldsAlong(inv: OfTrace): Along {
    (w, i, attempted, e) => Holds(inv, w)
  }

  ghost function HoldsAtEnd(inv: OfTrace): AtEnd {
    (w, ending) => Holds(inv, w)
  }

  /** What a request's own events and the others' events keep, the whole request keeps. */
  lemma RequestInduction(job: Job, env: Environment, w: World, inv: OfTrace)
    requires Survives(job, env, inv) && Holds(inv, w)
    ensures Holds(inv, Complete(job, env, w).0)
  {
    var charged := Noted(job, w, Charged(job.id, env.wall(w.now)));
    NotedKeeps(job, env, inv, w, Charged(job.id, env.wall(w.now)));
    var visit, along, done := VisitorOf(job, env), HoldsAlong(inv), HoldsAtEnd(inv);
    forall x, i: nat, attempted, e ensures WalkRule(visit, job.chain, job.deadline, along, done, x, i, attempted, e) {
      if i < |job.chain| && Holds(inv, x) {
        VisitKeeps(job, env, x, Turn(i, job.chain[i], attempted), e, inv);
      }
    }
    WalkInduction(visit, job.chain, job.deadline, along, done, charged, 0, [], NO_ATTEMPT);
  }

  // ----- Histories of many requests -----

  lemma {:induction false} ReplaySplit(policy: RouterPolicy, s: Shared, a: seq<Event>, b: seq<Event>)
    ensures Replay(policy, s, a + b) == Replay(policy, Replay(policy, s, a), b)
  {
    if b == [] {
      assert a + b == a;
    } else {
      assert (a + b)[..|a + b| - 1] == a + b[..|b| - 1];
      ReplaySplit(policy, s, a, b[..|b| - 1]);
    }
  }

  /** The shared state is what the trace has made of the router's first state. */
  ghost function ReplayOf(policy: RouterPolicy, first: Shared): OfTrace {
    (s, trace: seq<Event>) => s == Replay(policy, first, trace)
  }

  lemma RequestIsRecorded(job: Job, env: Environment, w: World, first: Shared)
    requires w.shared == Replay(job.policy, first, w.trace)
    ensures var after := Complete(job, env, w).0;
            after.shared == Replay(job.policy, first, after.trace)
  {
    var inv := ReplayOf(job.policy, first);
    forall s, t: seq<Event>, e ensures EventRule(job.policy, inv, s, t, e) {
      assert (t + [e])[..|t|] == t;
    }
    forall s, t, events ensures OthersRule(job.policy, inv, s, t, events) {
      ReplaySplit(job.policy, first, t, events);
    }
    RequestInduction(job, env, w, inv);
  }

  ghost predicate SilentIn(who: nat, trace: seq<Event>) {
    forall e <- trace :: e.who != who
  }

  /**
    One routed request, as the trace shows it: it starts from what the trace had made of the
    shared state, runs among the events of others, and is silent before and after.
   */
  ghost predicate ActedAs(policy: RouterPolicy, first: Shared, trace: seq<Event>, who: nat,
                          job: Job, env: Environment, w: World, later: seq<Event>) {
    && job.id == who && job.policy == policy
    && Routed(job, w) && Distinct(job.chain) && Foreign(env, who)
    && w.shared == Replay(policy, first, w.trace)
    && SilentIn(who, w.trace) && SilentIn(who, later)
    && trace == Complete(job, env, w).0.trace + later
  }

  ghost predicate Acted(policy: RouterPolicy, first: Shared, trace: seq<Event>, who: nat) {
    exists job, env, w, later :: ActedAs(policy, first, trace, who, job, env, w, later)
  }

  ghost predicate NotesFailures(trace: seq<Event>, who: nat) {
    exists e <- trace :: e.who == who && e.Failed?
  }

  /** A history in which every failure was noted by some routed request, in whatever interleaving. */
  ghost predicate MadeByRequests(policy: RouterPolicy, first: Shared, trace: seq<Event>) {
    forall who :: NotesFailures(trace, who) ==> Acted(policy, first, trace, who)
  }

  lemma ActorsBlameOnce(policy: RouterPolicy, first: Shared, trace: seq<Event>, who: nat, model: string)
    requires Acted(policy, first, trace, who)
    ensures Blames(trace, who, model) <= 1
  {
    var job, env, w, later :| ActedAs(policy, first, trace, who, job, env, w, later);
    ForeignEventsBlameNobody(w.trace, who, model);
    ForeignEventsBlameNobody(later, who, model);
    OneRequestBlamesAModelOnce(job, env, w, model);
    BlamesSplit(Complete(job, env, w).0.trace, later, who, model);
  }

  lemma {:induction false} NoFailureNoBlame(trace: seq<Event>, who: nat, model: string)
    requires !NotesFailures(trace, who)
    ensures Blames(trace, who, model) == 0
  {
    if trace != [] {
      var before, last := trace[..|trace| - 1], trace[|trace| - 1];
      assert last in trace;
      assert forall e <- before :: e in trace;
      NoFailureNoBlame(before, who, model);
    }
  }

  /**
    In any history of any requests, interleaved in any way: if a breaker holds a closing time
    at all, at least `failureThreshold` different requests, and at least one, have failed on
    that model since its last success.
   */
  lemma BreakerHistory(policy: RouterPolicy, first: Shared, trace: seq<Event>, model: string)
    requires BreakerOf(first.breakers, model) == CLOSED
    requires MadeByRequests(policy, first, trace)
    ensures BreakerOf(Replay(policy, first, trace).breakers, model).openUntil != 0 ==>
              |FailedBy(trace, model)| >= Max(1, policy.failureThreshold)
  {
    forall who ensures Blames(trace, who, model) <= 1 {
      if NotesFailures(trace, who) {
        ActorsBlameOnce(policy, first, trace, who, model);
      } else {
        NoFailureNoBlame(trace, who, model);
      }
    }
    OpenBreakerMeansDistinctFailures(policy, first, trace, model);
  }

  // ----- Histories grow by requests -----

  ghost predicate Quiet(env: Environment) {
    forall k: nat :: env.others(k) == [] && env.reply(k).meanwhile == []
  }

  /** The trace has grown by events of one request. */
  ghost predicate SignedSince(past: seq<Event>, who: nat, trace: seq<Event>) {
    past <= trace && forall e <- trace[|past|..] :: e.who == who
  }

  ghost function GrownBy(past: seq<Event>, who: nat): OfTrace {
    (s, trace: seq<Event>) => SignedSince(past, who, trace)
  }

  lemma QuietRequestSignsItsEvents(job: Job, env: Environment, w: World)
    requires Quiet(env)
    ensures SignedSince(w.trace, job.id, Complete(job, env, w).0.trace)
  {
    var inv := GrownBy(w.trace, job.id);
    forall s, t: seq<Event>, e: Event | e.who == job.id ensures EventRule(job.policy, inv, s, t, e) {
      if SignedSince(w.trace, job.id, t) {
        assert (t + [e])[|w.trace|..] == t[|w.trace|..] + [e];
      }
    }
    forall s, t: seq<Event>, k: nat
      ensures OthersRule(job.policy, inv, s, t, env.others(k))
      ensures OthersRule(job.policy, inv, s, t, env.reply(k).meanwhile)
    {
      assert t + [] == t;
    }
    RequestInduction(job, env, w, inv);
  }

  lemma ActedStays(policy: RouterPolicy, first: Shared, past: seq<Event>, added: seq<Event>, who: nat)
    requires Acted(policy, first, past, who) && SilentIn(who, added)
    ensures Acted(policy, first, past + added, who)
  {
    var job, env, w, later :| ActedAs(policy, first, past, who, job, env, w, later);
    assert past + added == Complete(job, env, w).0.trace + (later + added);
    assert ActedAs(policy, first, past + added, who, job, env, w, later + added);
  }

  /** Such histories exist in every length: a new request on its own makes a longer one. */
  lemma HistoriesGrow(job: Job, env: Environment, w: World, first: Shared)
    requires Routed(job, w) && Distinct(job.chain) && Quiet(env)
    requires w.shared == Replay(job.policy, first, w.trace) && SilentIn(job.id, w.trace)
    requires MadeByRequests(job.policy, first, w.trace)
    ensures var after := Complete(job, env, w).0;
            && MadeByRequests(job.policy, first, after.trace)
            && after.shared == Replay(job.policy, first, after.trace)
  {
    var trace := Complete(job, env, w).0.trace;
    RequestIsRecorded(job, env, w, first);
    QuietRequestSignsItsEvents(job, env, w);
    var added := trace[|w.trace|..];
    assert trace == w.trace + added;
    forall who | NotesFailures(trace, who) ensures Acted(job.policy, first, trace, who) {
      if who == job.id {
        assert trace == trace + [];
        assert ActedAs(job.policy, first, trace, who, job, env, w, []);
      } else {
        assert NotesFailures(w.trace, who);
        ActedStays(job.policy, first, w.trace, added, who);
      }
    }
  }
}
