# Proofs about the game-recommendation service

A Dafny model of the service's self-contained algorithms, with proofs of what they promise
over all inputs, all runs and all interleavings. `dafny verify dfyconfig.toml` checks it.

Every component has a specification function that follows the code branch by branch, a class or
method in the code's own form that is proved equal to it (fields updated in place, the same
loops), and a `...Laws` module that proves what the component is for:

| files | component |
|---|---|
| `Foundations`, `Text` | options and results, machine integers, reals, a stable sort, string operations |
| `RateLimiter`, `RateLimiterLaws`, `RateLimiterWindows`, `RateLimiterKeys` | the fixed-window request limiter with lazy purging |
| `HostLimiter`, `HostLimiterLaws`, `HostLimiterGrants` | per-host token bucket, concurrency cap, 429 breaker, permits |
| `SourceBudget` | the smaller token bucket and the daily budget |
| `ModelRegistry`, `TaskRouter`, `TaskRouterLaws`, `RouterAnswers`, `BreakerLaws`, `RouterBudgetLaws` | the multi-model router: deadline, protocols, breakers, registry, call budget |
| `Scoring`, `Mmr`, `Ranking`, `RankingWeights` | scores, diversity re-ranking, hard filter and feed |
| `RankValidation`, `RankValidationLaws`, `RankSalvage`, `AiRerank` | validating, sanitizing and applying a model's ranking |
| `Intent` | merging a model's reading of a search with the rules' |
| `CatalogSync`, `CatalogSyncLaws` | the resumable catalog sync and its durable cursor |
| `FeedCursor` | pagination cursors and pages |

Time is an argument: nanoseconds, milliseconds or real seconds as the code counts them. The network, the
clock, the store's failures, hash iteration order and other requests are parameters that may be anything.

## Where the code does less than it seems

Each of these is proved, with its exact condition:

- A stretch of one window's length charges a key up to twice its limit minus one, and a run of the limiter
  reaches that (`TwoWindowLawIsTight`); a limit of zero still lets one request through, since a counter that is
  not open is never tested (`FirstRequestIsAllowed`).
- `retry_after_seconds` is enough exactly when the remaining window is a whole number of seconds or less than
  one second (`RetryHintIsEnoughIff`).
- Reaching the router's deadline proves a second call was made exactly for routes above one millisecond
  (`DeadlineTakesTwoCallsIff`).
- The first write to an empty model registry shuts out every other model (`MarkingIsLocalIff`,
  `SuccessIsLocalIff`).
- An unflagged sanitized result is the strictly valid one exactly when every list could be read; an unreadable
  list disappears without a flag (`UnflaggedMeansValidIff`, `UnreadableListVanishesSilently`).
- `min + max` is byte arithmetic. A party inside the recommended range fits to at least 3/4 exactly when the sum
  fits a byte or the party lies at least 128 below the maximum (`GroupFitsWellIff`). Parties of 1 to 64, which are
  all that the service lets through, always do (`ValidatedPartiesFitWell`); a party of 200 in 100..240 does not (`LargePartyFitsBadly`), but only a direct caller of the ranking
  library (crates/recommender/src/pipeline.rs:47-83) can pass a larger one.
- Calls of the catalog sync, made by one version, end a pass once the budgets of those that nothing disturbs outnumber
  the due entries, exactly when every due entry has a name (`CallsFinishIff`): one nameless application refuses every
  page that has to deliver it. Calls that break off do no harm, and every page they save is progress
  (`SavedPagesEndThePass`); each costs at most one page (`BreakingOffCostsOnePage`).
- A feed cursor is unreadable exactly when its context holds a colon or its section differs
  (`CursorRoundTrip`).
- Re-ordering by a model's opinion loses results exactly when some lack an id or share one
  (`NothingIsLostIff`).
- A daily budget keeps to its limit exactly when no day key recurs after another (`DailyLimitHoldsIff`). The
  router's budgets do so exactly when no minute, or day, recurs after another and none sees 2^32 calls, which would
  wrap its counter (`MinuteBudgetHoldsIff`, `DayBudgetHoldsIff`). A clock that turns back is granted a whole budget
  again (`ReturningToADayRefillsIt`, `TurningBackRefillsTheMinute`).

## Model

| member | source | states |
|---|---|---|
| RateLimiting.ChargesAreDistinct | apps/server/src/rate_limit.rs:230-277 | a request never charges one counter twice, and each by that counter's own limit |
| RateLimiting.RateLimiter.Check | apps/server/src/rate_limit.rs:157-228 | one request: purge, capacity test, test all, charge all; answer and new table as specified |
| RateLimiting.RateLimiter.Purge | apps/server/src/rate_limit.rs:182-189 | which requests purge, what a purge keeps, and how the schedule moves on |
| RateLimiting.RateLimiter.TestKeys | apps/server/src/rate_limit.rs:197-210 | the first used-up counter decides, and nothing is charged |
| RateLimiting.RateLimiter.ChargeKeys | apps/server/src/rate_limit.rs:212-226 | every key is charged and the smallest remaining count is reported |
| RateLimitingLaws.PurgeIsUnobservable | apps/server/src/rate_limit.rs:182-195 | whatever the purge schedule does, capacity is judged on the unexpired counters |
| RateLimitingLaws.StepRefinesReference | apps/server/src/rate_limit.rs:157-228 | one step is a step of the limiter that forgets each counter the moment its window ends |
| RateLimitingLaws.LazyPurgeIsUnobservable | apps/server/src/rate_limit.rs:157-228 | over any chronological run, from any state, every answer is the reference limiter's; the table is full exactly when the unexpired counters are |
| RateLimitingWindows.ChargedOnceOrNotAtAll | apps/server/src/rate_limit.rs:197-227 | an allowed request moves each of its counters by one, any other request moves none, and a used-up counter never moves |
| RateLimitingWindows.TwoWindowLaw | apps/server/src/rate_limit.rs:197-227 | any stretch of one window's length charges a key at most twice its limit minus one |
| RateLimitingWindows.AdmissibleTimesAreCharged | apps/server/src/rate_limit.rs:157-228 | a run of one request at any times its allotment admits is allowed throughout, and charges each of its counters at each of them |
| RateLimitingWindows.TwoWindowLawIsTight | apps/server/src/rate_limit.rs:157-228 | a run of the limiter reaches twice the limit minus one in one window's length, if the request's other limits leave room |
| RateLimitingWindows.FirstRequestIsAllowed | apps/server/src/rate_limit.rs:197-226 | a request with no open counter is let through whatever its limits, zero included |
| RateLimitingWindows.RunsStayWithinAllotment | apps/server/src/rate_limit.rs:157-228 | the two-window bound for every key of every run of the limiter itself |
| RateLimitingWindows.RetryHintIsEnoughIff | apps/server/src/rate_limit.rs:202-208 | when waiting the advertised seconds is enough |
| RateLimitingKeys.ChargesAreOwned | apps/server/src/rate_limit.rs:230-289 | the counters a route, device, session and address lead to, and the one for everybody |
| RateLimitingKeys.CheckIsExact | apps/server/src/rate_limit.rs:157-228 | when a request is unlimited, refused for capacity, refused by one of its own counters and for how long, or allowed and with what left; and that exactly its own counters move, by one |
| RateLimitingKeys.RunningCountersAreLive | apps/server/src/rate_limit.rs:182-195 | the counters that count are those that started less than a minute ago |
| RateLimitingKeys.UntrustedHeadersAreIgnored | apps/server/src/rate_limit.rs:279-289 | without trust in proxies their header changes neither state nor answer |
| RateLimitingKeys.TrustedHeadersHideThePeer | apps/server/src/rate_limit.rs:279-289 | with it, a named address makes the peer's irrelevant |
| RateLimitingKeys.DevicesHideSessions | apps/server/src/rate_limit.rs:252-277 | a device makes the bearer token irrelevant |
| HostLimiting.HostState.Refill | crates/ai/src/host_limit.rs:55-63 | tokens grow with the elapsed time up to the cap |
| HostLimiting.HostState.TryAcquire | crates/ai/src/host_limit.rs:65-82 | breaker, cap, tokens, in this order; what a refusal changes |
| HostLimiting.HostState.Release429 | crates/ai/src/host_limit.rs:89-96 | counting a 429 and opening the breaker |
| HostLimiting.HostLimiter.TryAcquire | crates/ai/src/host_limit.rs:118-133 | the permit, its normalised host, and no change to any other host |
| HostLimiting.HostLimiter.Release | crates/ai/src/host_limit.rs:135-144 | only the named host's state changes |
| HostLimiting.HostPermit.Finish | crates/ai/src/host_limit.rs:170-186 | an explicit release followed by the drop counts once |
| HostLimiting.HostPermit.Drop | crates/ai/src/host_limit.rs:188-194 | an unreleased permit is given back as a soft error, a released one is not |
| HostLimitingLaws.StepIsSound | crates/ai/src/host_limit.rs:55-101 | one event keeps tokens in bounds and in_flight equal to the live permits, and the saturating subtraction never saturates |
| HostLimitingLaws.RunIsSound | crates/ai/src/host_limit.rs:118-194 | the same over every run of every host, with permits released in any way |
| HostLimitingLaws.HostRateLaw | crates/ai/src/host_limit.rs:55-82 | grants to one host in any interval number at most max_tokens + refill_per_sec times its length |
| HostLimitingLaws.OpenBreakerRefuses | crates/ai/src/host_limit.rs:65-72 | an open breaker grants nothing before its reopening instant and spends no token |
| HostLimitingLaws.BreakerOpensIff | crates/ai/src/host_limit.rs:84-101 | a 429 sets the reopening instant exactly when the host's 429s since its last success reach the threshold; other failures do not end the streak |
| HostLimitingLaws.HostsAreIsolated | crates/ai/src/host_limit.rs:118-144 | state, permits and answers of a host are those of a run with only that host's events |
| HostLimitingLaws.SpellingsShareOneState | crates/ai/src/host_limit.rs:118-124 | spellings that differ in outer white space or ASCII case reach one state, and a permit is released where it was taken |
| HostLimitingGrants.AcquireIsFair | crates/ai/src/host_limit.rs:55-82 | the answer by breaker, permits and balance, and the balance and refill instant it leaves |
| HostLimitingGrants.GrantedIff | crates/ai/src/host_limit.rs:55-133 | after any run a request is granted exactly when the breaker is not open, a permit is free and the balance is at least one token |
| HostLimitingGrants.WaitingIsRewarded | crates/ai/src/host_limit.rs:55-82 | once a token's worth of time has passed a waiting host is let through, and a new host starts full |
| HostLimitingGrants.NamesStayApart | crates/ai/src/host_limit.rs:118-124 | normal names are their own normal form, so different hosts have different states |
| SourceBudget.TokenBucket.TryAcquire | crates/steam-source/src/rate_limit.rs:28-38 | refill, then take the cost or advertise a wait |
| SourceBudget.DailyBudget.TryConsume | crates/steam-source/src/rate_limit.rs:74-84 | a new day starts afresh; a cost over the limit changes nothing else |
| SourceBudgetLaws.RefillComposes | crates/steam-source/src/rate_limit.rs:44-55 | refilling in steps is refilling once |
| SourceBudgetLaws.WaitIsSoundAndTight | crates/steam-source/src/rate_limit.rs:28-38 | a retry after the advertised wait succeeds; after any shorter whole wait the balance is still below the cost |
| SourceBudgetLaws.SourceRateLaw | crates/steam-source/src/rate_limit.rs:28-55 | costs granted in any interval are at most the capacity plus its refill plus one tolerance |
| SourceBudgetLaws.DailyLimitHolds | crates/steam-source/src/rate_limit.rs:74-84 | while no day key recurs after another, no day is granted more than the limit, or than was left of it |
| SourceBudgetLaws.DailyLimitHoldsIff | crates/steam-source/src/rate_limit.rs:74-84 | whatever is asked for over these days, no day exceeds the limit, exactly when no day key recurs after another |
| SourceBudgetLaws.ReturningToADayRefillsIt | crates/steam-source/src/rate_limit.rs:74-78 | a day key that goes back is granted its limit a second time |
| ModelRegistries.ModelRegistry.ReplaceModels | crates/ai/src/model_registry.rs:40-51 | a discovery replaces everything known |
| ModelRegistries.ModelRegistry.MarkUnavailable | crates/ai/src/model_registry.rs:102-120 | the marked model is known as unavailable, on a populated and on an empty registry |
| ModelRegistries.ModelRegistry.RecordProtocolSuccess | crates/ai/src/model_registry.rs:122-147 | the model is available and proven for the protocol |
| ModelRegistries.MarkingIsLocalIff | crates/ai/src/model_registry.rs:93-120 | marking forbids the model, and leaves the others alone exactly when the registry was populated |
| ModelRegistries.SuccessIsLocalIff | crates/ai/src/model_registry.rs:93-147 | a recorded success allows the model, and leaves the others alone exactly when the registry was populated |
| ModelRegistries.DiscoveryUsesTheLastRow | crates/ai/src/model_registry.rs:40-51 | of several rows for one model the last decides |
| TaskRouting.TaskRouter.StructuredCompletion | crates/ai/src/router.rs:215-378 | early refusals leave no trace; otherwise result and shared state are those of the specified walk |
| TaskRouting.TaskRouter.WalkModels | crates/ai/src/router.rs:249-378 | the loop over the chain is the specified walk |
| TaskRouting.TaskRouter.VisitOne | crates/ai/src/router.rs:252-370 | one model: registry filter, breaker, protocol list, attempts |
| TaskRouting.TaskRouter.TryModel | crates/ai/src/router.rs:275-369 | the loop over the protocols, and the rejection that is counted once it is over |
| TaskRouting.TaskRouter.TryOne | crates/ai/src/router.rs:276-365 | what each answer does to breaker, registry and loop |
| TaskRouting.TaskRouter.CallProvider | crates/ai/src/router.rs:284-295 | a call ends with its answer or at its own time limit |
| TaskRouting.TaskRouter.Chain | crates/ai/src/types.rs:226-235 | the chain is built by skipping fallbacks already in it |
| TaskRouting.TaskRouter.ProtocolsForModel | crates/ai/src/router.rs:380-417 | override, preference or capability order, filtered once the registry is fresh |
| TaskRouting.TaskRouter.ModelCircuitOpen | crates/ai/src/router.rs:419-423 | whether the closing time lies ahead; no other model's breaker changes |
| TaskRouting.TaskRouter.NoteModelSuccess | crates/ai/src/router.rs:425-429 | the model's breaker is closed and its count zero |
| TaskRouting.TaskRouter.NoteModelFailure | crates/ai/src/router.rs:431-448 | which errors count, and when the breaker opens and until when |
| TaskRouting.TaskRouter.ConsumeBudget | crates/ai/src/router.rs:450-475 | minute and day windows, and what a refusal has already charged |
| TaskRoutingLaws.ChainIsDeduplicated | crates/ai/src/types.rs:226-235 | the chain starts with the primary and holds the primary and every fallback exactly once |
| TaskRoutingLaws.JobsAreRouted | crates/ai/src/router.rs:233-247 | every request walks its own model or else the route's chain, non-empty and without repetitions, under its own protocol, the route's deadline and the smaller token limit |
| TaskRoutingLaws.DeadlineLaw | crates/ai/src/router.rs:233-294 | elapsed time never exceeds the route timeout, no call exceeds half of it (or 1 ms) or the deadline, and calls number at most models times protocols |
| TaskRoutingLaws.DeadlineTakesTwoCallsIff | crates/ai/src/router.rs:487-490 | running into the deadline takes at least two calls exactly when the timeout exceeds 1 ms |
| TaskRoutingLaws.OneHangEndsAShortRoute | crates/ai/src/router.rs:341-352 | at 1 ms or less one hanging call ends the request |
| TaskRoutingLaws.ChainDiscipline | crates/ai/src/router.rs:237-311 | the visited models are the chain's from its head, in order; attempted are those neither disallowed nor circuit-open, once, ending in the winner; used_fallback; the response is the provider's; protocols tried are a prefix of each model's own list |
| TaskRoutingLaws.GivingUpIsExhaustive | crates/ai/src/router.rs:248-378 | a request that gives up has visited every model of its chain in order and left out only disallowed or circuit-open ones |
| TaskRoutingLaws.TryInduction | crates/ai/src/router.rs:275-365 | what one round of the protocol loop keeps, the whole loop keeps |
| TaskRoutingLaws.WalkInduction | crates/ai/src/router.rs:248-370 | what one visit keeps, the whole walk keeps |
| RouterAnswerLaws.VisitTells | crates/ai/src/router.rs:252-370 | a visit in full: passed over silently or with its reason, or called under its protocols in turn until one answer settles it |
| RouterAnswerLaws.OfferedIff | crates/ai/src/router.rs:380-423 | which protocols a visited model is offered, and in which order |
| RouterAnswerLaws.AnswersAreEarned | crates/ai/src/router.rs:296-311 | a completion is the last reply, under its protocol and model, for the task and route version asked; it lists the attempted models, and admits a fallback exactly when the answering model is not the primary one; its model is on record as working |
| RouterAnswerLaws.ErrorsAreAccounted | crates/ai/src/router.rs:245-377 | an error means no good answer, and is the budget, the deadline, an empty choice, or that of the last model the registry allowed |
| RouterAnswerLaws.CallsAreGenuine | crates/ai/src/router.rs:276-295 | every call is the provider's own reply or a whole share of time, every offered model is called, and nothing follows a good answer |
| RouterAnswerLaws.ErrorsAreUnderstood | crates/ai/src/router.rs:492-517 | which refusals are about the protocol, and which errors count against a model |
| RouterAnswerLaws.MissingModelsAreUnderstood | crates/ai/src/router.rs:505-517 | which refusals say that a model is missing |
| BreakerLaws.ModelsAreIsolated | crates/ai/src/router.rs:419-448 | a breaker depends only on the events about its own model |
| BreakerLaws.VisitHolds | crates/ai/src/router.rs:252-370 | a visit counts one failure against its model exactly when its last answer was a counted error it gave up on, and none against another |
| BreakerLaws.OneRequestBlamesAModelOnce | crates/ai/src/router.rs:252-370 | whatever mix of rejections, errors and timeouts occurs, a request counts at most one failure per model |
| BreakerLaws.TimeoutsAreNotBlamed | crates/ai/src/router.rs:341-362 | a model that only ran out of its attempt time is not blamed |
| BreakerLaws.BreakerTripsIff | crates/ai/src/router.rs:425-448 | short of 2^32 failures in a row, the count is the failures since the last success and a closing time is set exactly when they have reached the threshold |
| BreakerLaws.RequestInduction | crates/ai/src/router.rs:215-378 | a property of the trace that each event of a request and each event of others keeps, the whole request keeps |
| BreakerLaws.BreakerHistory | crates/ai/src/router.rs:215-448 | in any history made by routed requests, interleaved in any way, a closing time means at least threshold different requests failed since the last success |
| BreakerLaws.HistoriesGrow | crates/ai/src/router.rs:215-378 | such histories exist in every length: a new request, run on its own after one, makes a longer one that the shared state again replays |
| RouterBudgetLaws.MinuteBudgetHoldsIff | crates/ai/src/router.rs:450-475 | under every policy no minute exceeds its budget, exactly when none recurs after another and none sees 2^32 calls |
| RouterBudgetLaws.DayBudgetHoldsIff | crates/ai/src/router.rs:450-475 | the same for days |
| RouterBudgetLaws.BudgetsHold | crates/ai/src/router.rs:450-475 | while the wall clock does not go back, no minute and no day grants more calls than its budget |
| RouterBudgetLaws.TurningBackRefillsTheMinute | crates/ai/src/router.rs:455-464 | a wall clock that returns to a minute is granted that minute's whole budget again, whatever the budget |
| Scoring.AiBlendIsBounded | crates/recommender/src/lib.rs:94-103 | the model's opinion moves a score by at most 0.15 times its confidence and never past itself |
| Scoring.FriendFitResponds | crates/domain/src/lib.rs:64-89 | the fit grows with every welcome signal and falls with every unwelcome one |
| Scoring.FriendlierScoresHigher | crates/recommender/src/lib.rs:35-103 | in every section a friendlier game scores at least as well, and every score is in [0,1] |
| RankingWeights.FitWeights | crates/domain/src/lib.rs:64-89 | between the bounds each signal changes the fit by its own weight |
| RankingWeights.SectionWeights | crates/recommender/src/lib.rs:53-88 | the same for each section's score |
| RankingWeights.GameplayWeights | crates/recommender/src/personalize.rs:130-146 | the preferences decide how much each signal changes the gameplay fit |
| RankingWeights.ScalesBegin | crates/recommender/src/personalize.rs:130-146 | where fit and gameplay fit begin |
| RankingWeights.SectionScalesBegin | crates/recommender/src/lib.rs:53-88 | a section score begins with the friend fit's share, less the risk |
| Mmr.MmrRerank | crates/recommender/src/mmr.rs:13-63 | the incremental re-ranking is the greedy selection that recomputes every penalty from scratch, plus the tail |
| Mmr.SelectAll | crates/recommender/src/mmr.rs:35-61 | the selection loop follows that greedy order |
| Mmr.PickBest | crates/recommender/src/mmr.rs:39-55 | the scan finds the first item of the highest naive value |
| Mmr.RaisePenalties | crates/recommender/src/mmr.rs:57-59 | after one comparison each, penalties are again the maxima over all selected items |
| MmrLaws.RerankKeepsEverything | crates/recommender/src/mmr.rs:21-63 | the result is a permutation, and from position 200 on the relevance-sorted list |
| MmrLaws.TailIsLessRelevant | crates/recommender/src/mmr.rs:22-34 | nothing in the tail is more relevant than anything in the window |
| MmrLaws.RelevanceLossIsBounded | crates/recommender/src/mmr.rs:36-76 | lambda times the relevance given up is at most 0.8 (1 - lambda), plus 0.02 while exploration slots are open |
| MmrLaws.OrderIsOptimal | crates/recommender/src/mmr.rs:35-76 | of any two of the first 200, the advantage in relevance of the later one never outweighs its disadvantage in likeness to what stands before the earlier one and in exploration bonus; on a tie relevance decides |
| MmrLaws.LessSimilarComesFirst | crates/recommender/src/mmr.rs:35-76 | with lambda below one and nothing to explore, of two equally relevant games the less similar one comes first |
| MmrLaws.PureRelevanceIsSorting | crates/recommender/src/mmr.rs:21-60 | with lambda one and no exploration slots the result is the relevance sort |
| Ranking.AvailabilityFit | crates/recommender/src/personalize.rs:165-209 | the accumulating loop computes the share of known dimensions that match |
| Ranking.SignalsRecord.Personalize | crates/recommender/src/personalize.rs:102-163 | the caller's record is adjusted in place to the specified signals |
| Ranking.RankOne | crates/recommender/src/pipeline.rs:116-152 | one candidate is personalized, scored, boosted and explained as specified |
| Ranking.RankFeed | crates/recommender/src/pipeline.rs:95-161 | the feed is the re-ranking of the scored candidates that pass the filter |
| RankingLaws.FilterAndFitAgree | crates/recommender/src/personalize.rs:41-73 | the filter's availability tests pass exactly when the fit is 1, or 1/2 with nothing known |
| RankingLaws.FilterIsSuitability | crates/recommender/src/personalize.rs:6-100 | the filter lets through exactly what no known preference, party size or lack of evidence speaks against |
| RankingLaws.MiddleFits | crates/recommender/src/personalize.rs:109-116 | a group in the middle of its range fits fully |
| RankingLaws.EndsFit | crates/recommender/src/personalize.rs:109-116 | a group at either end of its range fits to three quarters |
| RankingLaws.OutsideMisfits | crates/recommender/src/personalize.rs:117-125 | fit and mismatch outside the range, and with unknown bounds |
| RankingLaws.GroupFitsWellIff | crates/recommender/src/personalize.rs:109-116 | inside the recommended range the fit is at least 3/4 exactly when the sum fits a byte or the party is at least 128 below the maximum |
| RankingLaws.ValidatedPartiesFitWell | crates/domain/src/lib.rs:249-251 | parties up to 64, as the service validates them, always fit to at least 3/4 inside the range |
| RankingLaws.LargePartyFitsBadly | crates/recommender/src/personalize.rs:109-116 | a party of 200 recommended for 100 to 240 fits to less than 3/4 |
| RankingLaws.PassingMeansFitting | crates/recommender/src/personalize.rs:6-128 | a candidate that passes has availability fit 1, or 1/2 with nothing known; no mismatch; and with both bounds known a group fit of at least 3/4 under that same condition, 1/2 otherwise |
| RankingLaws.BoostIsMonotonic | crates/recommender/src/pipeline.rs:85-93 | more votes never lower the boost, which stays within the weight and is half of it at saturation |
| RankingLaws.VotesOnlyHelp | crates/recommender/src/pipeline.rs:116-136 | the final score is in [0,1], never falls as votes rise, gains at most the vote weight, and nothing else changes |
| RankingLaws.ExplanationAdmitsLowConfidenceIff | crates/recommender/src/explain.rs:14-79 | an explanation holds the words the re-ranking looks for exactly when the data confidence is below 0.45 |
| RankingLaws.ExplorationFindsUncertainCandidates | crates/recommender/src/mmr.rs:44-50 | the exploration bonus goes to a feed candidate exactly when slots are open, it fits friends and its data confidence is low |
| RankingLaws.FeedIsExactlyThePassing | crates/recommender/src/pipeline.rs:95-161 | the feed holds exactly the passing candidates, each as often as it came in |
| RankingWeights.PersonalFitIsComposed | crates/recommender/src/pipeline.rs:116-125 | gameplay and availability count four to one, shifted by at most a half, and nothing else becomes personal |
| RankingWeights.CrossPlatformIff | crates/recommender/src/personalize.rs:150-163 | the fit is the share of preferred platforms that the game supports |
| RankingWeights.BoostIsExact | crates/recommender/src/pipeline.rs:85-93 | votes get n out of n + saturation of their weight |
| RankingWeights.EntryIsComposed | crates/recommender/src/pipeline.rs:116-152 | an entry carries its candidate's names; section and personal fit count three to one, plus the votes, up to one |
| RankingWeights.ReasonsApply | crates/recommender/src/explain.rs:14-79 | exactly the reasons that apply are given, or else a word on the fit |
| RankingWeights.CautionsApply | crates/recommender/src/explain.rs:14-79 | exactly the cautions that apply are given |
| RankingWeights.EvidenceApplies | crates/recommender/src/explain.rs:14-79 | exactly the claims with a source name it |
| RankValidation.ValidateRankResult | crates/ai/src/validate.rs:233-350 | the strict checks as loops over the entries |
| RankValidation.ValidateItems | crates/ai/src/validate.rs:254-311 | items pushed and ids remembered until one is refused |
| RankValidation.ValidateItem | crates/ai/src/validate.rs:255-310 | one entry: its id, scores, lists and evidence, or a refusal |
| RankValidation.SanitizeRankResult | crates/ai/src/validate.rs:85-231 | the salvage, its flag, and the validation of the draft |
| RankValidation.SanitizeItems | crates/ai/src/validate.rs:105-180 | which entries are dropped or stripped, and when the flag is raised |
| RankValidation.SanitizeItem | crates/ai/src/validate.rs:106-179 | one entry: kept with its known evidence, stripped of its claims, or dropped |
| RankValidation.ReadTexts | crates/ai/src/validate.rs:399-439 | trimmed texts with blanks skipped; one bad text refuses the list |
| RankValidation.ReadStringList | crates/ai/src/validate.rs:399-439 | a list of an entry, empty when missing, refused when too long |
| RankValidation.ReadRootList | crates/ai/src/validate.rs:352-384 | a list of the result itself, refused when missing or too long |
| RankValidationLaws.ValidatedIsWellFormed | crates/ai/src/validate.rs:233-350 | distinct candidates only, scores in range, own evidence only, no claim without evidence |
| RankValidationLaws.WellFormedSurvivesStorage | crates/ai/src/validate.rs:233-350 | a well-formed result, encoded and validated again, comes back unchanged |
| RankValidationLaws.SanitizeExtendsValidate | crates/ai/src/validate.rs:85-350 | what validation accepts, sanitizing returns unchanged and unflagged |
| RankValidationLaws.SanitizeIsConservative | crates/ai/src/validate.rs:85-231 | a sanitized result is well-formed, and its items are some of the entries in order with unchanged ids and scores |
| RankSalvageLaws.ListsAreRead | crates/ai/src/validate.rs:352-439 | a list is read exactly when each of its texts is, and says what is written, trimmed and without blanks |
| RankSalvageLaws.EntryIsSalvaged | crates/ai/src/validate.rs:105-180 | one entry: when it is kept, with which evidence and texts, and when a change is admitted |
| RankSalvageLaws.SummaryIsSalvaged | crates/ai/src/validate.rs:182-215 | the summary: markup dropped, cut at 500 characters, evidence known or given |
| RankSalvageLaws.SanitizedExactly | crates/ai/src/validate.rs:85-231 | with candidates whose own evidence ids are in order, when sanitizing succeeds, what it keeps of every entry, and when the flag is raised |
| RankSalvageLaws.RankingIsTheLastResort | apps/server/src/api.rs:3910-3958 | strict, or else sanitized, or else the bare ranking exactly if every entry names a candidate of its own with scores in range |
| RankValidationLaws.UnflaggedMeansValidIff | crates/ai/src/validate.rs:85-231 | an unflagged result is the strictly valid one exactly when every list could be read |
| RankValidationLaws.UnreadableListVanishesSilently | crates/ai/src/validate.rs:125-147 | a concrete ranking that strict validation refuses and sanitizing passes without a flag |
| RankValidationLaws.CacheReturnsWhatWasStored | apps/server/src/api.rs:3910-3958 | whatever the degradation lets through validates from the cache to the same result |
| AiReordering.ResultPage.ApplyValidatedAiRank | apps/server/src/api.rs:3960-4022 | draining into a map, picking the named and sorting the rest gives the specified page |
| AiReordering.ReorderingConservesIds | apps/server/src/api.rs:3960-4022 | named results first in the opinions' order and adjusted, the rest unchanged by falling score for every hash order, each id of the page once |
| AiReordering.NothingIsLostIff | apps/server/src/api.rs:3961-3970 | no result is lost exactly when each has an id of its own |
| AiReordering.ReScoringIsBounded | apps/server/src/api.rs:3977-3990 | a new score is within 0.15 times the confidence of its clamped base and between base and fit |
| AiReordering.AdjustingIsConfined | apps/server/src/api.rs:3990-4011 | only the fields that carry the opinion change |
| AiReordering.OpinionsAreWritten | apps/server/src/api.rs:3960-4011 | a named result holds the new score, fit, confidence, reasons, appended cautions and final score, and all else as before |
| IntentMerging.MergeIntentWithRules | crates/ai/src/intent.rs:143-261 | the staged merge is the specified one |
| IntentMerging.PromoteClaims | crates/ai/src/intent.rs:215-244 | the loop over the model's hard fields |
| IntentMerging.HardIff | crates/ai/src/intent.rs:193-244 | a field is hard exactly when the rules fix it, or it is claimed, trusted and present |
| IntentMerging.SafetyFloor | crates/ai/src/intent.rs:143-261 | rule values appear unchanged and hard; hard fields are whitelisted, distinct and present |
| IntentMerging.ModelSpeaksWhereRulesAreSilent | crates/ai/src/intent.rs:143-191 | the model's values survive where the rules say nothing; modes are only added |
| IntentMerging.ConfidenceOnlyHardens | crates/ai/src/intent.rs:193-244 | raising the confidence alone never removes a hard field and changes no value |
| IntentMerging.MergingIsIdempotent | crates/ai/src/intent.rs:143-267 | merging the result again with the same rules changes nothing |
| IntentMerging.ShapeSurvivesIff | crates/ai/src/intent.rs:80-132 | a valid intent stays valid exactly when the rules' party size and platforms are in order |
| CatalogSync.AppListCursor.NewPass | crates/steam-source/src/cursor.rs:22-31 | a pass starts below every id with the watermark as its high water |
| CatalogSync.AppListCursor.AdvancePage | crates/steam-source/src/cursor.rs:33-43 | position and flag move, the high water never falls |
| CatalogSync.AppListCursor.CompletePass | crates/steam-source/src/cursor.rs:45-49 | the high water becomes the watermark and the position is reset |
| CatalogSync.AppListCursor.ApplyPage | crates/steam-source/src/app_list.rs:162-171 | the last page also completes the pass |
| CatalogSync.ParseAppListPage | crates/steam-source/src/app_list.rs:105-159 | the structure rules; one bad entry refuses the page |
| CatalogSync.CollectSteamCatalog | apps/dbtool/src/main.rs:1464-1517 | resume or restart, then ingest before save, page by page, under any fault |
| CatalogSyncLaws.PageKeepsTruth | crates/steam-source/src/app_list.rs:105-171 | a truthful page moves the cursor truthfully; the last one leaves everything stored |
| CatalogSyncLaws.CallIsCrashSafe | apps/dbtool/src/main.rs:1464-1517 | for any page sizes, page budget, fault and version: everything at or below the saved position is stored, the watermark does not fall, and a completed pass is complete and has lifted it to all that was modified |
| CatalogSyncLaws.CursorNeverLies | apps/dbtool/src/main.rs:1455-1517 | the same through any history of calls, crashes, upgrades and directory changes between passes |
| CatalogSyncLaws.CompletedPassIsComplete | apps/dbtool/src/main.rs:1464-1517 | every completed pass of such a history has stored the directory of its time |
| CatalogSyncLaws.PagesAreReadIff | crates/steam-source/src/app_list.rs:105-159 | exactly which pages are read, and what is read from them |
| CatalogSyncLaws.WatermarkIsGenuine | crates/steam-source/src/cursor.rs:33-49 | in any history from an empty store the watermark is zero or a listed modification time |
| CatalogSyncLaws.PassesAreIncremental | crates/steam-source/src/cursor.rs:33-49 | over a steady directory a completed pass moves the watermark to the latest modification, so the next is due only entries of that time or without one |
| CatalogSyncLaws.NewPassesStartOver | apps/dbtool/src/main.rs:1464-1471 | after a completed pass, and under another version, a call does what it would at the start of a pass from the same watermark |
| CatalogSyncLaws.ProgressInduction | apps/dbtool/src/main.rs:1472-1517 | what each page carries back over it, saved or broken off, a call of any number of pages does |
| CatalogSyncLaws.CallAdvances | apps/dbtool/src/main.rs:1472-1517 | wherever a call breaks off, it completed the pass or left at least as many entries fewer as it saved pages |
| CatalogSyncLaws.BreakingOffCostsOnePage | apps/dbtool/src/main.rs:1472-1517 | a call fetches at most one page that it does not save, only if it breaks off, and the next call resumes exactly past the saved ones |
| CatalogSyncLaws.SavedPagesEndThePass | apps/dbtool/src/main.rs:1464-1517 | under any faults and unanswered requests, calls of one version complete the pass once they have saved more pages than entries were due, and no pass completes with a nameless due entry |
| CatalogSyncLaws.CallsFinishIff | apps/dbtool/src/main.rs:1464-1517 | among calls of which any may break off, once the page budgets of the undisturbed ones exceed the due entries, some call completes the pass exactly when every due entry has a name |
| CatalogSyncLaws.UndisturbedCallFinishesIff | apps/dbtool/src/main.rs:1472-1517 | the same of one undisturbed call with enough pages |
| FeedCursors.CursorRoundTrip | apps/server/src/api.rs:6297-6354 | what any issued cursor decodes to under any expected key: its offset, stale, or invalid |
| FeedCursors.HashedContextsRoundTrip | apps/server/src/api.rs:6356-6374 | with the hexadecimal context the service uses, every cursor comes back |
| FeedCursors.FirstFormatIsStale | apps/server/src/api.rs:6326-6330 | cursors of the first format are stale whatever follows |
| FeedCursors.NumbersAreServed | apps/server/src/api.rs:2629-2706 | which limits and page numbers are refused, and which entries a page number gets |
| FeedCursors.CursorsAreServed | apps/server/src/api.rs:2706-2733 | which page an issued cursor gets, and when it is outdated or a bad request |
| FeedCursors.OtherCursorsAreServed | apps/server/src/api.rs:2706-2733 | no cursor, a first-format cursor, and a text that is none |
| FeedCursors.CrawlDeliversEverything | apps/server/src/api.rs:2696-2914 | following next_cursor concatenates to the whole list once, in as many pages as total_pages announces (one for an empty list); the k-th says it is page k and is what asking for that number gets |

## Left out

- Concurrency below the level of one locked body, one `note_*` or `consume_budget` call: these are atomic steps. In the router other requests step in at the start of every visit and during every provider call, not between two statements in a row.
- Floating point: scores, tokens and confidences are exact reals, so rounding, NaN and infinities are not captured; a clamp stands for `unit`.
- HTTP handlers, headers, OpenAPI, accounts, and the reading of addresses and identity headers: the limiter's request holds the values that were read.
- Storage: ingesting is a map update and saving a cursor an atomic write; job leases and cache tables are not modelled.
- The provider adapters, prompts, retries and sleeps; a fetch either answers or fails.
- Debug-build overflow panics (byte sum, counters): the model wraps as release builds do.
- The feed's sort by presentation fields, the request limits of accounts and logins, group advice, comparison and summaries: single-pass checks or easier repetitions of these components.
- Canary results and the parsing of a model list: single-pass updates of one row.
- A later 429 may shorten an open breaker, so nothing is claimed about the open period growing.
- RateLimitingLaws.LazyPurgeIsUnobservable: needs request times that do not go back, because the instant is read before the lock is taken.
- RankValidation.ValidateRankResult: a refusal is modelled without its message text.
- RankValidationLaws.CacheReturnsWhatWasStored: the text of the stored JSON is not modelled, so the printing and reading of floating-point numbers is taken as exact.
- RankSalvageLaws.SanitizedExactly: for candidates whose own evidence ids validation would read unchanged, as the service's are; of other ids only SanitizeIsConservative is claimed.
- SourceBudgetLaws.WaitIsSoundAndTight: the code accepts a balance within EPSILON of the cost, so a shorter wait can succeed inside that tolerance; the lemma says exactly when.
- TaskRoutingLaws.DeadlineLaw: time passes only inside provider calls.
- RouterBudgetLaws.BudgetsHold: for windows of fewer than 2^32 calls, since the counters are 32 bits wide; beyond that it is false (MinuteBudgetHoldsIff).
- BreakerLaws.BreakerTripsIff: for fewer than 2^32 failures in a row, after which the 32-bit count wraps around.
- SourceBudgetLaws.DailyLimitHolds: for limits below 2^64 - 1; at that limit the saturating sum refuses nothing.
- CatalogSync.ParseAppListPage: the price change number and the raw envelope are not carried along.
- CatalogSyncLaws.CursorNeverLies: the directory is fixed while a pass is under way; completeness is false when it changes in the middle of one.
- FeedCursors.CrawlDeliversEverything: the ranked list, limit and snapshot stay fixed along the crawl.
