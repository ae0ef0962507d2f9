/** What a caller of the router gets back: where an answer comes from, and what an error says. */
module RouterAnswerLaws {
  import opened Outcomes
  import opened MachineInts
  import opened AiErrors
  import opened ModelRegistries
  import opened TaskRouting
  import opened TaskRoutingLaws
  import Text

  // ----- Calls and the provider's replies -----

  /** The k-th call gets the k-th reply if that comes within its share, and is cut off then if not. */
  ghost predicate MadeAs(job: Job, env: Environment, c: Call, k: nat) {
    && c.started < job.deadline
    && c.maxOutputTokens == job.maxOutputTokens
    && var share := Min(job.deadline - c.started, Max(job.timeout / 2, 1_000_000));
       if env.reply(k).delay <= share then
         c.ended == c.started + env.reply(k).delay && c.answer == Answered(env.reply(k).outcome)
       else c.ended == c.started + share && c.answer == TimedOut
  }

  ghost predicate Genuine(job: Job, env: Environment, calls: seq<Call>) {
    forall k | 0 <= k < |calls| :: MadeAs(job, env, calls[k], k)
  }

  predicate IsOk(a: Answer) {
    a.Answered? && a.outcome.Ok?
  }

  ghost predicate Fruitless(calls: seq<Call>) {
    forall c <- calls :: !IsOk(c.answer)
  }

  function LastCall(w: World): Call
    requires w.calls != []
  {
    w.calls[|w.calls| - 1]
  }

  function ErrorIn(a: Answer): AiError
    requires !IsOk(a)
  {
    if a.TimedOut? then AiError.Timeout else a.outcome.error
  }

  /** The last call ends the calls, and it was to this model. */
  ghost predicate EndsWith(w: World, model: string) {
    w.calls != [] && LastCall(w).model == model
  }

  /** The reply's content, under the protocol of the call and the name of a model. */
  ghost predicate Passes(c: Call, response: StructuredResponse) {
    && IsOk(c.answer)
    && var reply := c.answer.outcome.value;
       && response.content == reply.content
       && response.protocol == Some(c.protocol)
       && response.model == if reply.model == "" then c.model else reply.model
  }

  /** The winner is on record: its breaker closed, and listed as available under the protocol. */
  ghost predicate OnRecord(s: Shared, c: Call) {
    && c.model in s.breakers && s.breakers[c.model] == Breaker(0, 0)
    && s.registry.Some? && c.model in s.registry.value.models
    && var caps := s.registry.value.models[c.model];
       && caps.available && caps.structuredJson
       && if c.protocol.ChatCompletions? then caps.chatCompletions else caps.responses
  }

  /** A model whose last error said that it does not exist is listed as unavailable. */
  ghost predicate DelistedIfMissing(s: Shared, model: string, e: AiError) {
    IsModelMissing(e) && !IsProtocolRejection(e) ==>
      s.registry.Some? && model in s.registry.value.models && !s.registry.value.models[model].available
  }

  /** Nothing came before the last call, which the model won. */
  ghost predicate WonLast(w: World, model: string, response: StructuredResponse) {
    && EndsWith(w, model)
    && Fruitless(w.calls[..|w.calls| - 1])
    && Passes(LastCall(w), response)
    && OnRecord(w.shared, LastCall(w))
  }

  /** The last call was to this model, and its error is the one that is passed on. */
  ghost predicate FailedLast(w: World, model: string, e: AiError) {
    EndsWith(w, model) && Fruitless(w.calls) && e == ErrorIn(LastCall(w).answer)
  }

  // ----- The protocols of one model -----

  /** Still going: the last protocol was rejected or ran out of its time. */
  ghost predicate Undecided(w: World, model: string, e: AiError, r: Option<AiError>) {
    && FailedLast(w, model, r.GetOr(e))
    && Inconclusive(LastCall(w).answer)
    && if r.Some? then IsProtocolRejection(r.value) else e.Timeout?
  }

  /** A timeout and the rejection of a protocol leave the model a chance with its next protocol. */
  predicate Inconclusive(a: Answer) {
    a.TimedOut? || (a.outcome.Err? && IsProtocolRejection(a.outcome.error))
  }

  /** The calls since `from` went to the model under these protocols in turn, all but the last in vain. */
  ghost predicate InTurn(from: nat, calls: seq<Call>, model: string, all: seq<ApiProtocol>) {
    && from <= |calls| <= from + |all|
    && (forall k | from <= k < |calls| :: calls[k].model == model && calls[k].protocol == all[k - from])
    && (forall k | from <= k < |calls| - 1 :: Inconclusive(calls[k].answer))
  }

  ghost predicate Trying(job: Job, env: Environment, turn: Turn, asked: World, all: seq<ApiProtocol>,
                         w: World, ps: seq<ApiProtocol>, e: AiError, r: Option<AiError>) {
    && asked.calls <= w.calls && w.visits == asked.visits
    && Genuine(job, env, w.calls) && Fruitless(w.calls)
    && InTurn(|asked.calls|, w.calls, turn.model, all) && ps == all[|w.calls| - |asked.calls|..]
    && if |w.calls| == |asked.calls| then w.now == asked.now else Undecided(w, turn.model, e, r)
  }

  /** How the protocols of a model end: with a good answer, the deadline, or an error that leaves none to try. */
  ghost predicate TriedOut(job: Job, env: Environment, model: string, asked: World, all: seq<ApiProtocol>,
                           w: World, ending: Ending) {
    && asked.calls < w.calls && w.visits == asked.visits
    && Genuine(job, env, w.calls)
    && InTurn(|asked.calls|, w.calls, model, all)
    && match ending
       case Won(response, _, _) => WonLast(w, model, response)
       case Expired => EndsWith(w, model) && Fruitless(w.calls) && job.deadline <= w.now
       case GaveUp(e, _) =>
         && FailedLast(w, model, e) && DelistedIfMissing(w.shared, model, e)
         && (Inconclusive(LastCall(w).answer) ==> |w.calls| == |asked.calls| + |all|)
  }

  ghost function TryingOn(job: Job, env: Environment, turn: Turn, asked: World, all: seq<ApiProtocol>): Midway {
    (w, ps, e, r) => Trying(job, env, turn, asked, all, w, ps, e, r)
  }

  ghost predicate StepEnds(job: Job, env: Environment, turn: Turn, asked: World, all: seq<ApiProtocol>, s: Step) {
    match s
    case Settled(w, ending) => TriedOut(job, env, turn.model, asked, all, w, ending)
    case Onward(w, e, r) =>
      && asked.calls < w.calls && w.visits == asked.visits
      && Genuine(job, env, w.calls) && InTurn(|asked.calls|, w.calls, turn.model, all)
      && Undecided(w, turn.model, e, r)
  }

  ghost function TriesEnd(job: Job, env: Environment, turn: Turn, asked: World, all: seq<ApiProtocol>): Step -> bool {
    (s: Step) => StepEnds(job, env, turn, asked, all, s) && (s.Onward? ==> |s.w.calls| == |asked.calls| + |all|)
  }

  lemma AttemptIsGenuine(job: Job, env: Environment, w: World, model: string, p: ApiProtocol)
    requires Genuine(job, env, w.calls) && w.now < job.deadline
    ensures var after := Attempt(job, env, w, model, p);
            && w.calls < after.calls && |after.calls| == |w.calls| + 1 && after.visits == w.visits
            && Genuine(job, env, after.calls)
            && LastCall(after).model == model && LastCall(after).protocol == p
            && after.calls[..|after.calls| - 1] == w.calls
  {
  }

  lemma SuccessIsOnRecord(job: Job, w: World, model: string, p: ApiProtocol)
    ensures var after := NotedSuccess(job, w, model, p);
            && after.calls == w.calls && after.visits == w.visits && after.now == w.now
            && forall c: Call | c.model == model && c.protocol == p :: OnRecord(after.shared, c)
  {
  }

  lemma FailureIsDelisted(job: Job, env: Environment, w: World, model: string, e: AiError)
    ensures var known := if IsModelMissing(e) then Noted(job, w, Missing(job.id, model, w.now)) else w;
            var after := NotedFailure(job, env, known, model, e);
            && after.calls == w.calls && after.visits == w.visits && after.now == w.now
            && DelistedIfMissing(after.shared, model, e)
  {
  }

  /** A call has been made, the first to end well if it does. */
  ghost predicate Called(job: Job, env: Environment, model: string, asked: World, all: seq<ApiProtocol>, after: World,
                         p: ApiProtocol) {
    && EndsWith(after, model) && LastCall(after).protocol == p
    && InTurn(|asked.calls|, after.calls, model, all)
    && asked.calls < after.calls && after.visits == asked.visits
    && Genuine(job, env, after.calls) && Fruitless(after.calls[..|after.calls| - 1])
  }

  lemma StillFruitless(calls: seq<Call>)
    requires calls != [] && Fruitless(calls[..|calls| - 1]) && !IsOk(calls[|calls| - 1].answer)
    ensures Fruitless(calls)
  {
    assert calls == calls[..|calls| - 1] + [calls[|calls| - 1]];
  }

  lemma SuccessTells(job: Job, env: Environment, turn: Turn, asked: World, all: seq<ApiProtocol>, after: World,
                     p: ApiProtocol, r: StructuredResponse)
    requires Called(job, env, turn.model, asked, all, after, p) && LastAnswer(after) == Answered(Ok(r))
    ensures TriedOut(job, env, turn.model, asked, all, NotedSuccess(job, after, turn.model, p),
                     Won(Stamped(r, turn.model, p), turn.index, turn.attempted))
  {
    SuccessIsOnRecord(job, after, turn.model, p);
  }

  lemma FailureTells(job: Job, env: Environment, turn: Turn, asked: World, all: seq<ApiProtocol>, after: World,
                     p: ApiProtocol, x: AiError)
    requires Called(job, env, turn.model, asked, all, after, p) && LastAnswer(after) == Answered(Err(x))
    ensures if IsProtocolRejection(x) then Undecided(after, turn.model, AiError.Timeout, Some(x))
            else
              var known :=
                if IsModelMissing(x) then Noted(job, after, Missing(job.id, turn.model, after.now)) else after;
              TriedOut(job, env, turn.model, asked, all, NotedFailure(job, env, known, turn.model, x),
                       GaveUp(x, turn.attempted))
  {
    StillFruitless(after.calls);
    FailureIsDelisted(job, env, after, turn.model, x);
  }

  lemma JudgedTells(job: Job, env: Environment, turn: Turn, asked: World, all: seq<ApiProtocol>, after: World,
                    p: ApiProtocol, e: AiError)
    requires Called(job, env, turn.model, asked, all, after, p)
    ensures var s := Judged(job, env, turn, after, p, e, LastAnswer(after));
            && StepEnds(job, env, turn, asked, all, s)
            && (s.Onward? ==> s.w == after)
  {
    match LastAnswer(after)
    case Answered(Ok(r)) => SuccessTells(job, env, turn, asked, all, after, p, r);
    case Answered(Err(x)) => FailureTells(job, env, turn, asked, all, after, p, x);
    case TimedOut => StillFruitless(after.calls);
  }

  lemma AttemptIsInTurn(from: nat, before: seq<Call>, after: seq<Call>, model: string, all: seq<ApiProtocol>)
    requires InTurn(from, before, model, all) && |before| < from + |all|
    requires forall k | from <= k < |before| :: Inconclusive(before[k].answer)
    requires |after| == |before| + 1 && before <= after
    requires after[|before|].model == model && after[|before|].protocol == all[|before| - from]
    ensures InTurn(from, after, model, all)
    ensures all[|before| - from..][1..] == all[|after| - from..]
  {
  }

  lemma OneMoreTell(job: Job, env: Environment, turn: Turn, asked: World, all: seq<ApiProtocol>,
                    w: World, ps: seq<ApiProtocol>, e: AiError, r: Option<AiError>, after: World)
    requires Trying(job, env, turn, asked, all, w, ps, e, r) && ps != []
    requires w.calls < after.calls && |after.calls| == |w.calls| + 1 && after.visits == w.visits
    requires Genuine(job, env, after.calls) && after.calls[..|after.calls| - 1] == w.calls
    requires LastCall(after).model == turn.model && LastCall(after).protocol == ps[0]
    ensures Called(job, env, turn.model, asked, all, after, ps[0])
    ensures ps[1..] == all[|after.calls| - |asked.calls|..]
  {
    AttemptIsInTurn(|asked.calls|, w.calls, after.calls, turn.model, all);
  }

  lemma StillTrying(job: Job, env: Environment, turn: Turn, asked: World, all: seq<ApiProtocol>, s: Step,
                    ps: seq<ApiProtocol>)
    requires StepEnds(job, env, turn, asked, all, s) && s.Onward?
    requires |s.w.calls| - |asked.calls| <= |all| && ps == all[|s.w.calls| - |asked.calls|..]
    ensures Trying(job, env, turn, asked, all, s.w, ps, s.lastError, s.rejected)
  {
  }

  lemma TrialTells(job: Job, env: Environment, turn: Turn, asked: World, all: seq<ApiProtocol>,
                   w: World, ps: seq<ApiProtocol>, e: AiError, r: Option<AiError>)
    requires Trying(job, env, turn, asked, all, w, ps, e, r) && ps != [] && w.now < job.deadline
    ensures var s := TryProtocol(job, env, turn, w, ps[0], e);
            && StepEnds(job, env, turn, asked, all, s)
            && (s.Onward? ==> Trying(job, env, turn, asked, all, s.w, ps[1..], s.lastError, s.rejected))
  {
    var after, p := Attempt(job, env, w, turn.model, ps[0]), ps[0];
    AttemptIsGenuine(job, env, w, turn.model, p);
    OneMoreTell(job, env, turn, asked, all, w, ps, e, r, after);
    JudgedTells(job, env, turn, asked, all, after, p, e);
    var s := Judged(job, env, turn, after, p, e, LastAnswer(after));
    assert TryProtocol(job, env, turn, w, p, e) == s;
    if s.Onward? {
      StillTrying(job, env, turn, asked, all, s, ps[1..]);
    }
  }

  /** When the protocols run out, or the time, the calls made so far say how the model ends. */
  lemma NoMoreTell(job: Job, env: Environment, turn: Turn, asked: World, all: seq<ApiProtocol>,
                   w: World, ps: seq<ApiProtocol>, e: AiError, r: Option<AiError>)
    requires Trying(job, env, turn, asked, all, w, ps, e, r) && all != [] && asked.now < job.deadline
    ensures ps == [] ==> StepEnds(job, env, turn, asked, all, Onward(w, e, r)) && |w.calls| == |asked.calls| + |all|
    ensures job.deadline <= w.now ==> StepEnds(job, env, turn, asked, all, Settled(w, Expired))
  {
  }

  lemma TryStaysTelling(job: Job, env: Environment, turn: Turn, asked: World, all: seq<ApiProtocol>, trial: Trial,
                        w: World, ps: seq<ApiProtocol>, e: AiError, r: Option<AiError>)
    requires IsTrial(trial, job, env, turn) && all != [] && asked.now < job.deadline
    ensures TryRule(trial, job.deadline, TryingOn(job, env, turn, asked, all), TriesEnd(job, env, turn, asked, all),
                    w, ps, e, r)
  {
    if Trying(job, env, turn, asked, all, w, ps, e, r) {
      NoMoreTell(job, env, turn, asked, all, w, ps, e, r);
      if ps != [] && w.now < job.deadline {
        TrialTells(job, env, turn, asked, all, w, ps, e, r);
        assert trial(w, ps[0], e) == TryProtocol(job, env, turn, w, ps[0], e);
      }
    }
  }

  /** A rejection that nothing settled counts against the model, and is what the model ends with. */
  lemma LeftOverTells(job: Job, env: Environment, turn: Turn, asked: World, all: seq<ApiProtocol>, w: World, e: AiError,
                      r: Option<AiError>)
    requires StepEnds(job, env, turn, asked, all, Onward(w, e, r)) && |w.calls| == |asked.calls| + |all|
    ensures var after := if r.Some? then NotedFailure(job, env, w, turn.model, r.value) else w;
            TriedOut(job, env, turn.model, asked, all, after, GaveUp(r.GetOr(e), turn.attempted))
  {
  }

  lemma TriesTell(job: Job, env: Environment, turn: Turn, asked: World, ps: seq<ApiProtocol>, e: AiError)
    requires Genuine(job, env, asked.calls) && Fruitless(asked.calls) && asked.now < job.deadline && ps != []
    ensures var (after, ending) := TryProtocols(job, env, turn, asked, ps, e);
            TriedOut(job, env, turn.model, asked, ps, after, ending)
  {
    var trial := TrialOf(job, env, turn);
    var inv, done := TryingOn(job, env, turn, asked, ps), TriesEnd(job, env, turn, asked, ps);
    forall w, qs, e, r ensures TryRule(trial, job.deadline, inv, done, w, qs, e, r) {
      TryStaysTelling(job, env, turn, asked, ps, trial, w, qs, e, r);
    }
    TryInduction(trial, job.deadline, inv, done, asked, ps, e, None);
    var step := TryEach(trial, job.deadline, asked, ps, e, None);
    assert TriesEnd(job, env, turn, asked, ps)(step);
    if step.Onward? {
      LeftOverTells(job, env, turn, asked, ps, step.w, step.lastError, step.rejected);
    }
  }

  // ----- One visit -----

  /** What a visit without a call passes on: the registry's models silently, the others with their reason. */
  ghost predicate PassedOver(job: Job, env: Environment, v: Visit, e: AiError, passed: AiError) {
    if !Allows(v) then passed == e
    else if Breaks(env, v) then passed == AiError.CircuitOpen
    else
      && ProtocolsFor(job, v.seen.registry, v.at, v.model) == []
      && passed == ProviderRejected("model " + v.model + " has no usable protocol for task " + job.task)
  }

  ghost predicate VisitTold(job: Job, env: Environment, w: World, model: string, e: AiError, after: World,
                            ending: Ending) {
    && |after.visits| == |w.visits| + 1 && after.visits[..|w.visits|] == w.visits
    && var v := after.visits[|w.visits|];
       && v.model == model
       && if Offered(job, env, v) == [] then
            && after.calls == w.calls && ending.GaveUp? && PassedOver(job, env, v, e, ending.error)
          else TriedOut(job, env, model, w.(visits := after.visits), Offered(job, env, v), after, ending)
  }

  lemma TriedOutFrom(job: Job, env: Environment, model: string, asked: World, w: World, all: seq<ApiProtocol>,
                     after: World, ending: Ending)
    requires TriedOut(job, env, model, asked, all, after, ending) && asked.calls == w.calls
    ensures TriedOut(job, env, model, w.(visits := after.visits), all, after, ending)
  {
  }

  lemma VisitTells(job: Job, env: Environment, w: World, turn: Turn, e: AiError)
    requires Genuine(job, env, w.calls) && Fruitless(w.calls) && w.now < job.deadline
    ensures var (after, ending) := VisitModel(job, env, w, turn, e);
            VisitTold(job, env, w, turn.model, e, after, ending)
  {
    var met := Arrived(job, env, w, turn.index, turn.model);
    var v := met.visits[|w.visits|];
    var asked := Noted(job, met, Consulted(job.id, turn.model));
    var ps := ProtocolsFor(job, asked.shared.registry, asked.now, turn.model);
    var chosen := turn.(attempted := turn.attempted + [turn.model]);
    assert met.visits[..|w.visits|] == w.visits;
    if !Skipped(env, v) && ps != [] {
      assert Offered(job, env, v) == ps;
      TriesTell(job, env, chosen, asked, ps, e);
      var (after, ending) := TryProtocols(job, env, chosen, asked, ps, e);
      TriedOutFrom(job, env, turn.model, asked, w, ps, after, ending);
      assert VisitModel(job, env, w, turn, e) == (after, ending);
    }
  }

  // ----- What errors mean -----

  lemma {:induction false} HoldsWord(before: string, word: string, after: string)
    ensures Text.Contains(Text.Lower(before + word + after), Text.Lower(word))
  {
    var text := Text.Lower(before + word + after);
    if before == "" {
      assert text[..|word|] == Text.Lower(word);
    } else {
      assert before + word + after == [before[0]] + (before[1..] + word + after);
      assert text[1..] == Text.Lower(before[1..] + word + after);
      HoldsWord(before[1..], word, after);
    }
  }

  /**
    A provider's refusal is about the protocol if it says so anywhere, in any case of letters;
    about a missing model if it names a model and says that there is none; and everything but
    the service's own refusals counts against a model.
   */
  lemma ErrorsAreUnderstood(e: AiError, before: string, word: string, after: string)
    requires Text.Lower(word) in {"protocol", "responses", "chat/completions", "not supported"}
    ensures IsProtocolRejection(ProviderRejected(before + word + after))
    ensures IsProtocolRejection(e) || IsModelMissing(e) ==> e.ProviderRejected?
    ensures IsModelMissing(e) ==> Text.Contains(Text.Lower(e.message), "model")
    ensures !Counts(e) <==> e.Disabled? || e.BudgetExhausted? || e.CircuitOpen? || e.Config?
  {
    HoldsWord(before, word, after);
  }

  /** A refusal that names a model and one of these phrases after it says that the model is missing. */
  lemma MissingModelsAreUnderstood(before: string, model: string, between: string, phrase: string, after: string)
    requires Text.Lower(model) == "model"
    requires Text.Lower(phrase) in {"not found", "does not exist", "unknown", "http 404"}
    ensures IsModelMissing(ProviderRejected(before + model + between + phrase + after))
  {
    HoldsWord(before, model, between + phrase + after);
    assert before + model + (between + phrase + after) == before + model + between + phrase + after;
    HoldsWord(before + model + between, phrase, after);
  }

  // ----- Which models and protocols are offered -----

  /** Listed as available, if anything is listed, and not behind an open breaker. */
  ghost predicate Reachable(env: Environment, v: Visit) {
    && (v.seen.registry.Some? ==>
          v.model in v.seen.registry.value.models && v.seen.registry.value.models[v.model].available)
    && (v.model in v.seen.breakers ==> v.seen.breakers[v.model].openUntil <= env.wall(v.at))
  }

  /** Not listed without the protocol. */
  ghost predicate Flagged(r: Registry, model: string, p: ApiProtocol) {
    r.Some? && model in r.value.models ==>
      if p.ChatCompletions? then r.value.models[model].chatCompletions else r.value.models[model].responses
  }

  ghost predicate Outdated(r: Registry, now: nat) {
    r.None? || r.value.ttl == 0 || now >= r.value.fetchedAt + r.value.ttl
  }

  lemma {:induction false} UsableIff(caps: ModelCapabilities, recent: bool, ps: seq<ApiProtocol>, p: ApiProtocol)
    ensures p in Usable(caps, recent, ps) <==> p in ps && (!recent || caps.Supports(p))
    ensures (forall q <- ps :: !recent || caps.Supports(q)) ==> Usable(caps, recent, ps) == ps
  {
    if ps != [] {
      UsableIff(caps, recent, ps[1..], p);
    }
  }

  /**
    A visited model is offered exactly the request's own protocol, or the preferred ones that an
    up-to-date registry does not rule out, in their order; the newer protocol comes first when
    nothing is preferred; and an unreachable model is offered none.
   */
  lemma OfferedIff(job: Job, env: Environment, v: Visit, p: ApiProtocol)
    ensures var r := v.seen.registry;
            && (p in Offered(job, env, v) <==>
                  && Reachable(env, v)
                  && if job.pinned.Some? then p == job.pinned.value
                     else if job.preference == [] then Flagged(r, v.model, p)
                     else p in job.preference && (Flagged(r, v.model, p) || Outdated(r, v.at)))
            && (Reachable(env, v) && job.pinned.None? ==>
                  && (job.preference == [] && Flagged(r, v.model, Responses) && Flagged(r, v.model, ChatCompletions) ==>
                        Offered(job, env, v) == [Responses, ChatCompletions])
                  && (job.preference != [] && (forall q <- job.preference :: Flagged(r, v.model, q)) ==>
                        Offered(job, env, v) == job.preference)
                  && (job.preference != [] && Outdated(r, v.at) ==> Offered(job, env, v) == job.preference))
            && |Offered(job, env, v)| <= MostProtocols(job)
  {
    var caps := Lookup(v.seen.registry, v.model).GetOr(UnknownModel(v.model));
    UsableIff(caps, IsFresh(v.seen.registry, v.at), caps.PreferredProtocols(), p);
    UsableIff(caps, IsFresh(v.seen.registry, v.at), job.preference, p);
    FewProtocols(job, v.seen.registry, v.at, v.model);
  }

  // ----- The walk -----

  /** Every visited model that was neither skipped nor without a protocol has been called. */
  ghost predicate AllCalled(job: Job, env: Environment, visits: seq<Visit>, calls: seq<Call>) {
    forall v <- visits :: Offered(job, env, v) != [] ==> exists c <- calls :: c.model == v.model
  }

  /** The error belongs to the last visited model that the registry allowed. */
  ghost predicate Explains(job: Job, env: Environment, visits: seq<Visit>, w: World, e: AiError) {
    if visits == [] then e == NO_ATTEMPT
    else
      var v := visits[|visits| - 1];
      if !Allows(v) then Explains(job, env, visits[..|visits| - 1], w, e)
      else if Offered(job, env, v) == [] then PassedOver(job, env, v, e, e)
      else FailedLast(w, v.model, e)
  }

  lemma {:induction false} ExplainedByCalls(job: Job, env: Environment, visits: seq<Visit>, w: World, after: World,
                                            e: AiError)
    requires Explains(job, env, visits, w, e) && after.calls == w.calls
    ensures Explains(job, env, visits, after, e)
  {
    if visits != [] {
      var v := visits[|visits| - 1];
      if !Allows(v) {
        ExplainedByCalls(job, env, visits[..|visits| - 1], w, after, e);
      }
    }
  }

  ghost predicate SoFar(job: Job, env: Environment, w: World, e: AiError) {
    && Genuine(job, env, w.calls) && Fruitless(w.calls)
    && AllCalled(job, env, w.visits, w.calls)
    && Explains(job, env, w.visits, w, e)
  }

  ghost predicate Ended(job: Job, env: Environment, w: World, ending: Ending) {
    && Genuine(job, env, w.calls)
    && AllCalled(job, env, w.visits, w.calls)
    && match ending
       case Won(response, index, _) => index < |job.chain| && WonLast(w, job.chain[index], response)
       case Expired => Fruitless(w.calls) && job.deadline <= w.now
       case GaveUp(e, attempted) =>
         && Fruitless(w.calls)
         && if attempted == [] then e == NO_MODELS else Explains(job, env, w.visits, w, e)
  }

  ghost function ToldAlong(job: Job, env: Environment): Along {
    (w, i, attempted, e) => SoFar(job, env, w, e)
  }

  ghost function ToldAtEnd(job: Job, env: Environment): AtEnd {
    (w, ending) => Ended(job, env, w, ending)
  }

  lemma MoreCalled(job: Job, env: Environment, w: World, model: string, after: World)
    requires AllCalled(job, env, w.visits, w.calls) && w.calls <= after.calls
    requires |after.visits| == |w.visits| + 1 && after.visits[..|w.visits|] == w.visits
    requires var v := after.visits[|w.visits|];
             v.model == model && (Offered(job, env, v) != [] ==> EndsWith(after, model))
    ensures AllCalled(job, env, after.visits, after.calls)
  {
    forall v <- after.visits | Offered(job, env, v) != [] ensures exists c <- after.calls :: c.model == v.model {
      if v in w.visits {
        var c :| c in w.calls && c.model == v.model;
        assert c in after.calls;
      } else {
        assert v == after.visits[|w.visits|];
        assert LastCall(after) in after.calls;
      }
    }
  }

  lemma VisitKeepsTelling(job: Job, env: Environment, w: World, turn: Turn, e: AiError, after: World, ending: Ending)
    requires SoFar(job, env, w, e) && VisitTold(job, env, w, turn.model, e, after, ending)
    requires turn.index < |job.chain| && turn.model == job.chain[turn.index]
    requires ending.Won? ==> ending.index == turn.index
    ensures if ending.GaveUp? then SoFar(job, env, after, ending.error) else Ended(job, env, after, ending)
  {
    var v := after.visits[|w.visits|];
    MoreCalled(job, env, w, turn.model, after);
    if !Allows(v) {
      ExplainedByCalls(job, env, w.visits, w, after, e);
    }
  }

  lemma WalkKeepsTelling(job: Job, env: Environment, visit: Visitor,
                         w: World, i: nat, attempted: seq<string>, e: AiError)
    requires IsVisitor(visit, job, env)
    ensures WalkRule(visit, job.chain, job.deadline, ToldAlong(job, env), ToldAtEnd(job, env), w, i, attempted, e)
  {
    if i < |job.chain| && SoFar(job, env, w, e) && w.now < job.deadline {
      var turn := Turn(i, job.chain[i], attempted);
      var (after, ending) := VisitModel(job, env, w, turn, e);
      VisitTells(job, env, w, turn, e);
      WinsAreIndexed(job, env, w, turn, e);
      VisitKeepsTelling(job, env, w, turn, e, after, ending);
    }
  }

  lemma WinsAreIndexed(job: Job, env: Environment, w: World, turn: Turn, e: AiError)
    ensures var (after, ending) := VisitModel(job, env, w, turn, e);
            ending.Won? ==> ending.index == turn.index
  {
    var asked := Noted(job, Arrived(job, env, w, turn.index, turn.model), Consulted(job.id, turn.model));
    var ps := ProtocolsFor(job, asked.shared.registry, asked.now, turn.model);
    TryLogs(job, env, turn.(attempted := turn.attempted + [turn.model]), asked, ps, e, turn.model);
  }

  lemma WalkTells(job: Job, env: Environment, w: World)
    requires w.calls == [] && w.visits == []
    ensures var (after, ending) := WalkChain(job, env, w);
            Ended(job, env, after, ending)
  {
    var visit := VisitorOf(job, env);
    var inv, done := ToldAlong(job, env), ToldAtEnd(job, env);
    forall x, i: nat, attempted, e ensures WalkRule(visit, job.chain, job.deadline, inv, done, x, i, attempted, e) {
      WalkKeepsTelling(job, env, visit, x, i, attempted, e);
    }
    WalkInduction(visit, job.chain, job.deadline, inv, done, w, 0, [], NO_ATTEMPT);
  }

  // ----- What the caller sees -----

  /** The request's own model, or else the route's primary one. */
  function Primary(route: TaskRoute, request: StructuredRequest): string {
    request.model.GetOr(route.primaryModel)
  }

  /** The answer is that of the last call, the only good one, and says truly how it was reached. */
  ghost predicate Earned(request: StructuredRequest, route: TaskRoute, env: Environment, after: World,
                         c: RoutedCompletion) {
    && after.calls != []
    && var last := LastCall(after);
       && Fruitless(after.calls[..|after.calls| - 1]) && Passes(last, c.response)
       && c.task == request.task && c.routeVersion == route.routeVersion
       && c.attemptedModels == Kept(env, after.visits)
       && c.attemptedModels != [] && c.attemptedModels[|c.attemptedModels| - 1] == last.model
       && (c.usedFallback <==> last.model != Primary(route, request))
       && OnRecord(after.shared, last)
  }

  /**
    A completion is exactly what the provider's last reply said, under the task and the version
    it was asked for; it names the models that were tried, and it admits a fallback exactly when
    the answering model is not the primary one.
   */
  lemma AnswersAreEarned(id: nat, policy: RouterPolicy, route: TaskRoute, request: StructuredRequest,
                         env: Environment, w: World)
    requires w.calls == [] && w.visits == []
    ensures var (after, ending) := Complete(JobOf(id, policy, route, request, w.now), env, w);
            var r := ResultOf(request, route, ending);
            r.Ok? ==> Earned(request, route, env, after, r.value)
  {
    var job := JobOf(id, policy, route, request, w.now);
    JobsAreRouted(id, policy, route, request, w);
    ChainIsDeduplicated(route.primaryModel, route.fallbackModels);
    ChainDiscipline(job, env, w);
    WalkTells(job, env, Noted(job, w, Charged(job.id, env.wall(w.now))));
  }

  /** What an error says about the request that ended in it. */
  ghost predicate Accounted(job: Job, env: Environment, granted: bool, after: World, e: AiError) {
    && Fruitless(after.calls)
    && if !granted then e == AiError.BudgetExhausted && after.calls == [] && after.visits == []
       else
         || (e == AiError.Timeout && job.deadline <= after.now)
         || (|after.visits| == |job.chain|
             && if Kept(env, after.visits) == [] then
                  e == ProviderRejected("no available models for task after registry filter")
                else Explains(job, env, after.visits, after, e))
  }

  /**
    An error means that no call was answered well, and says why: the budget refused the request,
    the deadline passed, no model was left to try, or else the error is that of the last model
    that the registry allowed: its open breaker, its lack of a protocol, or its last call's error.
   */
  lemma ErrorsAreAccounted(id: nat, policy: RouterPolicy, route: TaskRoute, request: StructuredRequest,
                           env: Environment, w: World)
    requires w.calls == [] && w.visits == []
    ensures var job := JobOf(id, policy, route, request, w.now);
            var (after, ending) := Complete(job, env, w);
            var r := ResultOf(request, route, ending);
            r.Err? ==> Accounted(job, env, Charge(policy, w.shared.budget, env.wall(w.now)).1, after, r.error)
  {
    var job := JobOf(id, policy, route, request, w.now);
    var charged := Noted(job, w, Charged(job.id, env.wall(w.now)));
    JobsAreRouted(id, policy, route, request, w);
    WalkTells(job, env, charged);
    if Charge(policy, w.shared.budget, env.wall(w.now)).1 {
      GivingUpIsExhaustive(job, env, w);
      var (after, ending) := Complete(job, env, w);
      assert Ended(job, env, after, ending);
      if ending.GaveUp? {
        assert ResultOf(request, route, ending) == Err(ending.error);
      }
    }
  }

  /**
    Each call gets the reply that the provider gave it, if that comes within half the route's
    time and what is left of it, and otherwise that whole share; every visited model with an
    allowed protocol is called; and nothing is called after a good answer.
   */
  lemma CallsAreGenuine(job: Job, env: Environment, w: World)
    requires w.calls == [] && w.visits == []
    ensures var after := Complete(job, env, w).0;
            && Genuine(job, env, after.calls)
            && AllCalled(job, env, after.visits, after.calls)
            && forall k | 0 <= k < |after.calls| - 1 :: !IsOk(after.calls[k].answer)
  {
    var charged := Noted(job, w, Charged(job.id, env.wall(w.now)));
    WalkTells(job, env, charged);
    var (after, ending) := Complete(job, env, w);
    if after.calls != [] {
      var before := after.calls[..|after.calls| - 1];
      assert forall k | 0 <= k < |before| :: before[k] in before && before[k] == after.calls[k];
    }
  }
}
