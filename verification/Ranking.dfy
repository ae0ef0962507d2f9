/** Preferences against candidates: the hard filter, the fit adjustments and the feed. */
module Ranking {
  import opened Outcomes
  import opened MachineInts
  import opened Reals
  import opened Scoring
  import opened Mmr
  import opened Text

  datatype UserPreferences = UserPreferences(
    partySize: U8,
    coopCompetitive: real,
    sessionMinutesMin: U32,
    sessionMinutesMax: U32,
    budgetCurrency: string,
    budgetMaxEachMinor: Option<int>,
    platforms: seq<string>,
    selfHostingWillingness: real,
    languages: seq<string>,
    excludedModes: seq<string>)

  datatype CandidateAvailability = CandidateAvailability(
    platforms: seq<string>,
    languages: seq<string>,
    typicalSessionMinutesMin: Option<U32>,
    typicalSessionMinutesMax: Option<U32>,
    priceCurrency: Option<string>,
    finalPriceMinor: Option<int>,
    isFree: Option<bool>)

  datatype RankingInput = RankingInput(
    appId: U32,
    name: string,
    dominantMode: Option<string>,
    recommendedMin: Option<U8>,
    recommendedMax: Option<U8>,
    availability: CandidateAvailability,
    signals: RankingSignals,
    personalAdjustment: real,
    playIntentCount: U32)

  // ----- The hard filter -----

  predicate PlatformMatches(required: string, available: string) {
    || EqualIgnoringCase(required, available)
    || ((Lower(required) == "mac" || Lower(required) == "macos")
        && (Lower(available) == "mac" || Lower(available) == "macos"))
  }

  predicate PlatformMismatch(required: seq<string>, available: seq<string>) {
    required != [] && available != [] && !exists r <- required, a <- available :: PlatformMatches(r, a)
  }

  predicate LanguageMismatch(required: seq<string>, available: seq<string>) {
    required != [] && available != [] && !exists r <- required, a <- available :: EqualIgnoringCase(r, a)
  }

  predicate ModeExcluded(prefs: UserPreferences, mode: Option<string>) {
    mode.Some? && exists ex <- prefs.excludedModes :: Contains(Lower(mode.value), Lower(ex))
  }

  predicate PartyDisjoint(prefs: UserPreferences, min: Option<U8>, max: Option<U8>) {
    min.Some? && max.Some? && (prefs.partySize < min.value || prefs.partySize > max.value)
  }

  predicate NoMultiplayerEvidence(s: RankingSignals) {
    var mp := s.multiplayer;
    && !(Unit(mp.privateSession) + Unit(mp.onlineCoop) + Unit(mp.selfHostOrDedicated) + Unit(mp.matchmakingCore) > 0.05)
    && Unit(s.dataConfidence) < 0.2
  }

  predicate SessionDisjoint(prefs: UserPreferences, a: CandidateAvailability) {
    && a.typicalSessionMinutesMin.Some? && a.typicalSessionMinutesMax.Some?
    && (a.typicalSessionMinutesMax.value < prefs.sessionMinutesMin
        || a.typicalSessionMinutesMin.value > prefs.sessionMinutesMax)
  }

  predicate PriceComparable(prefs: UserPreferences, a: CandidateAvailability) {
    && prefs.budgetMaxEachMinor.Some? && a.finalPriceMinor.Some? && a.priceCurrency.Some?
    && EqualIgnoringCase(a.priceCurrency.value, prefs.budgetCurrency)
  }

  predicate TooExpensive(prefs: UserPreferences, a: CandidateAvailability) {
    a.isFree != Some(true) && PriceComparable(prefs, a) && a.finalPriceMinor.value > prefs.budgetMaxEachMinor.value
  }

  predicate Unavailable(prefs: UserPreferences, a: CandidateAvailability) {
    || PlatformMismatch(prefs.platforms, a.platforms)
    || LanguageMismatch(prefs.languages, a.languages)
    || SessionDisjoint(prefs, a)
    || TooExpensive(prefs, a)
  }

  predicate HardFilter(prefs: UserPreferences, c: RankingInput) {
    && !ModeExcluded(prefs, c.dominantMode)
    && !PartyDisjoint(prefs, c.recommendedMin, c.recommendedMax)
    && !NoMultiplayerEvidence(c.signals)
    && !Unavailable(prefs, c.availability)
  }

  // ----- Personalization -----

  /** The fit is matched dimensions over known dimensions, a half when nothing is known. */
  method AvailabilityFit(prefs: UserPreferences, a: CandidateAvailability) returns (fit: real)
    ensures fit == AvailabilityShare(prefs, a)
  {
    var total, known := 0.0, 0;
    if prefs.platforms != [] && a.platforms != [] {
      known := known + 1;
      if !PlatformMismatch(prefs.platforms, a.platforms) {
        total := total + 1.0;
      }
    }
    if prefs.languages != [] && a.languages != [] {
      known := known + 1;
      if !LanguageMismatch(prefs.languages, a.languages) {
        total := total + 1.0;
      }
    }
    if a.typicalSessionMinutesMin.Some? && a.typicalSessionMinutesMax.Some? {
      known := known + 1;
      if a.typicalSessionMinutesMax.value >= prefs.sessionMinutesMin
         && a.typicalSessionMinutesMin.value <= prefs.sessionMinutesMax {
        total := total + 1.0;
      }
    }
    if a.isFree == Some(true) {
      known := known + 1;
      total := total + 1.0;
    } else if PriceComparable(prefs, a) {
      known := known + 1;
      if a.finalPriceMinor.value <= prefs.budgetMaxEachMinor.value {
        total := total + 1.0;
      }
    }
    if known == 0 {
      fit := 0.5;
    } else {
      fit := total / known as real;
    }
  }

  function Flag(b: bool): nat {
    if b then 1 else 0
  }

  /** How many of platforms, languages, session length and price are known on both sides. */
  function Known(prefs: UserPreferences, a: CandidateAvailability): nat {
    Flag(prefs.platforms != [] && a.platforms != [])
    + Flag(prefs.languages != [] && a.languages != [])
    + Flag(a.typicalSessionMinutesMin.Some? && a.typicalSessionMinutesMax.Some?)
    + Flag(a.isFree == Some(true) || PriceComparable(prefs, a))
  }

  /** How many known dimensions speak against the candidate. */
  function Objections(prefs: UserPreferences, a: CandidateAvailability): nat {
    Flag(PlatformMismatch(prefs.platforms, a.platforms)) + Flag(LanguageMismatch(prefs.languages, a.languages))
    + Flag(SessionDisjoint(prefs, a)) + Flag(TooExpensive(prefs, a))
  }

  function AvailabilityShare(prefs: UserPreferences, a: CandidateAvailability): real {
    var known := Known(prefs, a);
    if known == 0 then 0.5 else (known - Objections(prefs, a)) as real / known as real
  }

  /** u8 addition wraps in release builds. */
  function AddU8(a: U8, b: U8): U8 {
    (a + b) % U8_RANGE
  }

  /** (group_size_fit, group_size_mismatch) */
  function GroupSize(party: U8, min: Option<U8>, max: Option<U8>): (real, real) {
    if min.None? || max.None? then (0.5, 0.0)
    else if min.value <= party <= max.value then
      var mid := AddU8(min.value, max.value) as real / 2.0;
      var span := Max(SaturatingSub(max.value, min.value), 1) as real;
      var dist := Abs(party as real - mid) / span;
      (Unit(1.0 - dist * 0.5), 0.0)
    else
      var outside := if party < min.value then min.value - party else SaturatingSub(party, max.value);
      (0.2, Unit(outside as real / 8.0))
  }

  function Supported(prefs: UserPreferences, available: seq<string>, n: nat): nat
    requires n <= |prefs.platforms|
  {
    if n == 0 then 0
    else
      Supported(prefs, available, n - 1)
        + Flag(exists a <- available :: PlatformMatches(prefs.platforms[n - 1], a))
  }

  function GameplayFit(prefs: UserPreferences, mp: MultiplayerSignals, sizeFit: real): real {
    var coopPref := 1.0 - Unit(prefs.coopCompetitive);
    var competitivePref := Unit(prefs.coopCompetitive);
    var hostPref := Unit(prefs.selfHostingWillingness);
    var coopAlignment :=
      Unit(mp.onlineCoop) * coopPref + Unit(mp.privateSession) * coopPref + Unit(mp.selfHostOrDedicated) * hostPref;
    var competitiveAlignment := Unit(mp.matchmakingCore) * competitivePref;
    var penalty := Unit(mp.publicWorldDependency) * coopPref * 0.5 + Unit(mp.serviceShutdownRisk) * 0.3;
    Unit(0.55 * coopAlignment + 0.35 * competitiveAlignment + 0.25 - penalty + 0.15 * sizeFit)
  }

  function ApplyPersonalization(prefs: UserPreferences, s: RankingSignals, min: Option<U8>, max: Option<U8>,
                                a: CandidateAvailability): RankingSignals {
    var (sizeFit, sizeMismatch) := GroupSize(prefs.partySize, min, max);
    var mp := s.multiplayer.(groupSizeFit := sizeFit, groupSizeMismatch := sizeMismatch);
    var personalFit := Unit(0.8 * GameplayFit(prefs, mp, sizeFit) + 0.2 * AvailabilityShare(prefs, a));
    var crossPlatformFit :=
      if prefs.platforms != [] && a.platforms != [] then
        Unit(Supported(prefs, a.platforms, |prefs.platforms|) as real / |prefs.platforms| as real)
      else mp.crossPlatformFit;
    s.(multiplayer := mp.(crossPlatformFit := crossPlatformFit), personalFit := personalFit)
  }

  /** The caller's record of signals, which personalizing adjusts in place. */
  class SignalsRecord {
    var signals: RankingSignals

    constructor (signals: RankingSignals)
      ensures this.signals == signals
    {
      this.signals := signals;
    }

    method Personalize(prefs: UserPreferences, min: Option<U8>, max: Option<U8>, a: CandidateAvailability)
      modifies this
      ensures signals == ApplyPersonalization(prefs, old(signals), min, max, a)
    {
      var (sizeFit, sizeMismatch) := GroupSize(prefs.partySize, min, max);
      var mp := signals.multiplayer.(groupSizeFit := sizeFit, groupSizeMismatch := sizeMismatch);
      signals := signals.(multiplayer := mp);
      var gameplayFit := GameplayFit(prefs, mp, sizeFit);
      var availabilityFit := AvailabilityFit(prefs, a);
      signals := signals.(personalFit := Unit(0.8 * gameplayFit + 0.2 * availabilityFit));
      if prefs.platforms != [] && a.platforms != [] {
        var supported := Supported(prefs, a.platforms, |prefs.platforms|);
        var crossPlatformFit := Unit(supported as real / |prefs.platforms| as real);
        signals := signals.(multiplayer := mp.(crossPlatformFit := crossPlatformFit));
      }
    }
  }

  // ----- Explanations -----

  function If(b: bool, text: string): seq<string> {
    if b then [text] else []
  }

  /** The texts in the order of the code, each where its condition holds. */
  function ReasonTexts(private: bool, hosted: bool, coop: bool, fits: bool, praised: bool, early: bool): seq<string> {
    If(private, "支持私人房间联机") + If(hosted, "可自建服或专用服务器") + If(coop, "具备在线合作体验")
    + If(fits, "人数匹配当前小组") + If(praised, "累计口碑稳定") + If(early, "早期数据")
  }

  function CautionTexts(matched: bool, public: bool, ending: bool, unfit: bool, early: bool, mmo: bool): seq<string> {
    If(matched, "核心体验偏公共匹配") + If(public, "依赖公共世界玩家生态") + If(ending, "服务停运风险需关注")
    + If(unfit, "推荐人数与当前小组可能不匹配") + If(early, "早期数据，置信度偏低") + If(mmo, "MMO/公共世界主导")
  }

  /** There is always something to say. */
  function Spoken(reasons: seq<string>, friendFit: real): seq<string> {
    if reasons != [] then reasons
    else if friendFit >= 0.5 then ["熟人联机适配度尚可"]
    else ["进入候选池"]
  }

  function Explain(appId: U32, s: RankingSignals, score: ScoreBreakdown, mode: Option<string>): Explanation {
    var mp, id := s.multiplayer, NatToString(appId);
    var early := Unit(s.dataConfidence) < 0.45;
    var reasons := ReasonTexts(
      Unit(mp.privateSession) >= 0.6, Unit(mp.selfHostOrDedicated) >= 0.6, Unit(mp.onlineCoop) >= 0.6,
      Unit(mp.groupSizeFit) >= 0.7, Unit(s.quality) >= 0.75, early);
    var cautions := CautionTexts(
      Unit(mp.matchmakingCore) >= 0.6, Unit(mp.publicWorldDependency) >= 0.6, Unit(mp.serviceShutdownRisk) >= 0.5,
      Unit(mp.groupSizeMismatch) >= 0.4, early, mode.Some? && EqualIgnoringCase(mode.value, "mmo"));
    var evidenceIds :=
      If(Unit(mp.privateSession) >= 0.6, "feature:private_session:" + id)
      + If(Unit(mp.selfHostOrDedicated) >= 0.6, "feature:self_hosted_server:" + id)
      + If(Unit(mp.onlineCoop) >= 0.6, "feature:online_coop:" + id)
      + If(Unit(s.quality) >= 0.75, "review:" + id + ":summary");
    Explanation(Spoken(reasons, score.friendFit), cautions, evidenceIds)
  }

  // ----- The feed -----

  /** How much of its weight the signal gets. */
  function VoteShare(count: nat, saturation: nat): real
    requires saturation > 0
  {
    count as real / (count as real + saturation as real)
  }

  function Portion(weight: real, share: real): real {
    weight * share
  }

  /** Bounded boost from community votes; none when the signal is switched off. */
  function PlayIntentBoost(count: U32, weight: real, saturation: U32): real {
    if count == 0 || saturation == 0 || weight <= 0.0 then 0.0
    else Portion(Unit(weight), VoteShare(count, saturation))
  }

  datatype FeedConfig = FeedConfig(mmrLambda: real, playIntentWeight: real, playIntentSaturation: U32, version: string)

  function Clamp(x: real, lo: real, hi: real): real {
    if x < lo then lo else if x > hi then hi else x
  }

  function PersonalSignals(prefs: UserPreferences, c: RankingInput): RankingSignals {
    var s := ApplyPersonalization(prefs, c.signals, c.recommendedMin, c.recommendedMax, c.availability);
    s.(personalFit := Unit(s.personalFit + Clamp(c.personalAdjustment, -0.5, 0.5)))
  }

  function Boosted(base: ScoreBreakdown, boost: real): ScoreBreakdown {
    if boost > 0.0 then base.(finalScore := Unit(base.finalScore + boost)) else base
  }

  /** Scored, boosted and explained, with the signals already personal. */
  function RankedWith(section: FeedSection, cfg: FeedConfig, c: RankingInput, s: RankingSignals): RankedCandidate {
    var boost := PlayIntentBoost(c.playIntentCount, cfg.playIntentWeight, cfg.playIntentSaturation);
    var breakdown := Boosted(Score(section, s, None), boost);
    RankedCandidate(c.appId, c.name, c.dominantMode, c.recommendedMin, c.recommendedMax, breakdown,
                    Explain(c.appId, s, breakdown, c.dominantMode), cfg.version)
  }

  function Ranked(section: FeedSection, prefs: UserPreferences, cfg: FeedConfig, c: RankingInput): RankedCandidate {
    RankedWith(section, cfg, c, PersonalSignals(prefs, c))
  }

  function Passing(prefs: UserPreferences, candidates: seq<RankingInput>): seq<RankingInput> {
    if candidates == [] then []
    else
      var last := |candidates| - 1;
      Passing(prefs, candidates[..last]) + if HardFilter(prefs, candidates[last]) then [candidates[last]] else []
  }

  function AllRanked(section: FeedSection, prefs: UserPreferences, cfg: FeedConfig,
      cs: seq<RankingInput>): seq<RankedCandidate> {
    seq(|cs|, i requires 0 <= i < |cs| => Ranked(section, prefs, cfg, cs[i]))
  }

  lemma RankedSnoc(section: FeedSection, prefs: UserPreferences, cfg: FeedConfig, cs: seq<RankingInput>,
      c: RankingInput)
    ensures AllRanked(section, prefs, cfg, cs + [c]) ==
        AllRanked(section, prefs, cfg, cs) + [Ranked(section, prefs, cfg, c)]
  {
  }

  const EXPLORE_SLOTS := 2

  method RankOne(section: FeedSection, c: RankingInput, prefs: UserPreferences, cfg: FeedConfig)
    returns (ranked: RankedCandidate)
    ensures ranked == Ranked(section, prefs, cfg, c)
  {
    var record := new SignalsRecord(c.signals);
    record.Personalize(prefs, c.recommendedMin, c.recommendedMax, c.availability);
    var adjusted := Unit(record.signals.personalFit + Clamp(c.personalAdjustment, -0.5, 0.5));
    ranked := RankedWith(section, cfg, c, record.signals.(personalFit := adjusted));
  }

  method RankFeed(section: FeedSection, candidates: seq<RankingInput>, prefs: UserPreferences, cfg: FeedConfig)
    returns (items: seq<RankedCandidate>)
    ensures items == NaiveRerank(AllRanked(section, prefs, cfg, Passing(prefs, candidates)), cfg.mmrLambda,
        EXPLORE_SLOTS)
  {
    var scored: seq<RankedCandidate> := [];
    for i := 0 to |candidates|
      invariant scored == AllRanked(section, prefs, cfg, Passing(prefs, candidates[..i]))
    {
      assert candidates[..i + 1][..i] == candidates[..i];
      RankedSnoc(section, prefs, cfg, Passing(prefs, candidates[..i]), candidates[i]);
      if !HardFilter(prefs, candidates[i]) {
        assert Passing(prefs, candidates[..i + 1]) == Passing(prefs, candidates[..i]);
        continue;
      }
      var ranked := RankOne(section, candidates[i], prefs, cfg);
      scored := scored + [ranked];
    }
    assert candidates[..|candidates|] == candidates;
    items := MmrRerank(scored, cfg.mmrLambda, EXPLORE_SLOTS);
  }
}

/** What the feed promises. */
module RankingLaws {
  import opened Outcomes
  import opened MachineInts
  import opened Reals
  import opened Scoring
  import opened Mmr
  import opened Ranking
  import opened Text
  import MmrLaws

  // ----- Filter and fit agree -----

  /**
    The availability tests of the hard filter and the dimensions the fit counts are the
    same: a candidate passes them exactly when its share is 1, or 1/2 with nothing known.
   */
  lemma FilterAndFitAgree(prefs: UserPreferences, a: CandidateAvailability)
    ensures Objections(prefs, a) <= Known(prefs, a)
    ensures !Unavailable(prefs, a) <==> AvailabilityShare(prefs, a) == if Known(prefs, a) == 0 then 0.5 else 1.0
    ensures 0.0 <= AvailabilityShare(prefs, a) <= 1.0
  {
    var known, against := Known(prefs, a), Objections(prefs, a);
    if known > 0 {
      ShareIsOneIff(known, against);
    }
  }

  lemma ShareIsOneIff(known: nat, against: nat)
    requires 0 < known && against <= known
    ensures (known - against) as real / known as real == 1.0 <==> against == 0
    ensures 0.0 <= (known - against) as real / known as real <= 1.0
  {
    var share := (known - against) as real / known as real;
    assert share * known as real == (known - against) as real;
  }

  /** The byte sum does not wrap, or the party lies so far below the maximum that it does no harm. */
  predicate SumIsHarmless(party: U8, min: U8, max: U8) {
    min + max < U8_RANGE || party + 128 <= max
  }

  lemma WithinHalfSpanIff(party: U8, min: U8, max: U8)
    requires min <= party <= max
    ensures var mid := AddU8(min, max) as real / 2.0;
            2.0 * Abs(party as real - mid) <= Max(SaturatingSub(max, min), 1) as real <==>
            SumIsHarmless(party, min, max)
  {
  }

  /**
    A group inside the recommended range fits to at least 3/4 exactly when the wrapped byte
    sum is harmless to it.
   */
  lemma GroupFitsWellIff(party: U8, min: U8, max: U8)
    requires min <= party <= max
    ensures GroupSize(party, Some(min), Some(max)).0 >= 0.75 <==> SumIsHarmless(party, min, max)
  {
    WithinHalfSpanIff(party, min, max);
    var mid := AddU8(min, max) as real / 2.0;
    var far, span := Abs(party as real - mid), Max(SaturatingSub(max, min), 1) as real;
    HalfQuotientIff(far, span);
  }

  lemma HalfQuotientIff(far: real, span: real)
    requires 0.0 < span && 0.0 <= far
    ensures 0.0 <= far / span
    ensures far / span <= 0.5 <==> 2.0 * far <= span
  {
    var q := far / span;
    assert q * span == far;
    Cancel(0.0, q, span);
    if 2.0 * far <= span {
      Cancel(q, 0.5, span);
    }
    if q <= 0.5 {
      ScaleMono(span, q, 0.5);
    }
  }

  /** A party beyond 64 that fits badly inside its range: 100 + 240 wraps around to 84. */
  lemma LargePartyFitsBadly()
    ensures GroupSize(200, Some(100), Some(240)).0 < 0.75
  {
    GroupFitsWellIff(200, 100, 240);
  }

  /** The service lets only parties of 1 to 64 through, and to them the wrapped sum never does harm. */
  lemma ValidatedPartiesFitWell(party: U8, min: U8, max: U8)
    requires min <= party <= max && party <= 64
    ensures GroupSize(party, Some(min), Some(max)).0 >= 0.75
  {
    GroupFitsWellIff(party, min, max);
  }

  lemma HalfOf(x: real, span: real)
    requires span > 0.0 && 2.0 * x == span
    ensures x / span == 0.5
  {
    var q := x / span;
    assert q * span == x;
    Cancel(q, 0.5, span);
    Cancel(0.5, q, span);
  }

  /** As far as no sum wraps, a group in the middle of a range fits fully. */
  lemma MiddleFits(party: U8, min: U8, max: U8)
    requires min <= party <= max && min + max < 256 && 2 * party == min + max
    ensures GroupSize(party, Some(min), Some(max)) == (1.0, 0.0)
  {
    assert Abs(party as real - (min + max) as real / 2.0) == 0.0;
  }

  /** As far as no sum wraps, a group at either end of a range fits to three quarters. */
  lemma EndsFit(party: U8, min: U8, max: U8)
    requires min < max && min + max < 256 && (party == min || party == max)
    ensures GroupSize(party, Some(min), Some(max)) == (0.75, 0.0)
  {
    var mid, span := AddU8(min, max) as real / 2.0, Max(SaturatingSub(max, min), 1) as real;
    var far := Abs(party as real - mid);
    FarEnds(party, min, max);
    HalfOf(far, span);
  }

  lemma FarEnds(party: U8, min: U8, max: U8)
    requires min < max && min + max < 256 && (party == min || party == max)
    ensures AddU8(min, max) == min + max && Max(SaturatingSub(max, min), 1) == max - min
    ensures 2.0 * Abs(party as real - (min + max) as real / 2.0) == (max - min) as real
  {
  }

  /** Outside a group fits to a fifth, and the mismatch is full from eight players off; unknown bounds say a half. */
  lemma OutsideMisfits(party: U8, min: U8, max: U8)
    ensures party < min ==>
              GroupSize(party, Some(min), Some(max)) == (0.2, MinReal(1.0, (min - party) as real / 8.0))
    ensures min <= max < party ==>
              GroupSize(party, Some(min), Some(max)) == (0.2, MinReal(1.0, (party - max) as real / 8.0))
    ensures GroupSize(party, None, Some(max)) == GroupSize(party, Some(min), None) == (0.5, 0.0)
  {
  }

  /** What passing the filter means for the signals a candidate is scored with. */
  lemma PassingMeansFitting(prefs: UserPreferences, c: RankingInput)
    requires HardFilter(prefs, c)
    ensures AvailabilityShare(prefs, c.availability) == if Known(prefs, c.availability) == 0 then 0.5 else 1.0
    ensures var mp := PersonalSignals(prefs, c).multiplayer;
            && mp.groupSizeMismatch == 0.0
            && (if c.recommendedMin.Some? && c.recommendedMax.Some? then
                  mp.groupSizeFit >= 0.75 <==>
                  SumIsHarmless(prefs.partySize, c.recommendedMin.value, c.recommendedMax.value)
                else mp.groupSizeFit == 0.5)
  {
    FilterAndFitAgree(prefs, c.availability);
    if c.recommendedMin.Some? && c.recommendedMax.Some? {
      GroupFitsWellIff(prefs.partySize, c.recommendedMin.value, c.recommendedMax.value);
    }
  }

  // ----- Votes -----

  lemma VoteShareGrows(n: nat, m: nat, saturation: nat)
    requires n <= m && 0 < saturation
    ensures 0.0 <= VoteShare(n, saturation) <= VoteShare(m, saturation) < 1.0
    ensures n == saturation ==> VoteShare(n, saturation) == 0.5
  {
    var a, b, s := n as real, m as real, saturation as real;
    var share, more := VoteShare(n, saturation), VoteShare(m, saturation);
    ShareBounds(a, a + s, share);
    ShareBounds(b, b + s, more);
    SmallerRest(1.0 - share, 1.0 - more, a + s, b + s, s);
  }

  lemma PortionGrows(weight: real, share: real, more: real)
    requires 0.0 <= weight && 0.0 <= share <= more < 1.0
    ensures 0.0 <= Portion(weight, share) <= Portion(weight, more) <= Portion(weight, 1.0)
  {
    ProductSign(weight, share);
    ScaleMono(weight, share, more);
    ScaleMono(weight, more, 1.0);
  }

  lemma PlainPortions(weight: real)
    ensures Portion(weight, 1.0) == weight
    ensures Portion(weight, 0.5) == weight / 2.0
  {
  }

  lemma ShareBounds(a: real, total: real, share: real)
    requires 0.0 <= a < total && share == a / total
    ensures 0.0 <= share < 1.0 && (1.0 - share) * total == total - a
    ensures total == 2.0 * a ==> share == 0.5
  {
    assert share * total == a;
    Cancel(0.0, share, total);
    Cancel(share, 1.0, total);
    if total == 2.0 * a {
      Cancel(share, 0.5, total);
      Cancel(0.5, share, total);
    }
  }

  lemma SmallerRest(u: real, w: real, small: real, large: real, s: real)
    requires 0.0 < small <= large && 0.0 <= w
    requires u * small == s && w * large == s
    ensures w <= u
  {
    ScaleMono(w, small, large);
    Cancel(w, u, small);
  }

  /** More votes never lower the boost; it stays below the weight and is half of it at saturation. */
  lemma BoostIsMonotonic(n: U32, m: U32, weight: real, saturation: U32)
    requires n <= m
    ensures 0.0 <= PlayIntentBoost(n, weight, saturation) <= PlayIntentBoost(m, weight, saturation) <= Unit(weight)
    ensures n == saturation && n > 0 && 0.0 < weight <= 1.0 ==> PlayIntentBoost(n, weight, saturation) == weight / 2.0
  {
    if saturation > 0 && weight > 0.0 && m > 0 {
      VoteShareGrows(n, m, saturation);
      PlainPortions(Unit(weight));
      PortionGrows(Unit(weight), VoteShare(n, saturation), VoteShare(m, saturation));
    }
  }

  /**
    The final score is in [0, 1]; it never falls as votes rise, gains at most the vote
    weight over having none, and votes change nothing else in the breakdown.
   */
  lemma VotesOnlyHelp(section: FeedSection, prefs: UserPreferences, cfg: FeedConfig, c: RankingInput, m: U32)
    requires c.playIntentCount <= m
    ensures var few := Ranked(section, prefs, cfg, c).score;
            var many := Ranked(section, prefs, cfg, c.(playIntentCount := m)).score;
            var none := Ranked(section, prefs, cfg, c.(playIntentCount := 0)).score;
            && 0.0 <= none.finalScore <= few.finalScore <= many.finalScore <= 1.0
            && many.finalScore <= none.finalScore + Unit(cfg.playIntentWeight)
            && many == few.(finalScore := many.finalScore)
  {
    BoostIsMonotonic(c.playIntentCount, m, cfg.playIntentWeight, cfg.playIntentSaturation);
    assert PersonalSignals(prefs, c.(playIntentCount := m)) == PersonalSignals(prefs, c);
    assert PersonalSignals(prefs, c.(playIntentCount := 0)) == PersonalSignals(prefs, c);
  }

  // ----- Exploration -----

  lemma {:induction false} ContainsSplits(a: seq<string>, b: seq<string>, pattern: string)
    ensures AnyContains(a + b, pattern) == (AnyContains(a, pattern) || AnyContains(b, pattern))
  {
    if a == [] {
      assert a + b == b;
    } else {
      assert (a + b)[1..] == a[1..] + b;
      ContainsSplits(a[1..], b, pattern);
    }
  }

  lemma {:induction false} StartsNowhere(text: string, pattern: string)
    requires pattern != [] && pattern[0] !in text
    ensures !Contains(text, pattern)
  {
    if text != [] {
      StartsNowhere(text[1..], pattern);
    }
  }

  lemma Silent(b: bool, text: string, pattern: string)
    requires pattern != [] && pattern[0] !in text
    ensures !AnyContains(If(b, text), pattern)
  {
    StartsNowhere(text, pattern);
  }

  lemma Speaks(b: bool, text: string, pattern: string)
    requires Contains(text, pattern)
    ensures AnyContains(If(b, text), pattern) == b
  {
  }

  lemma OnlyTheLast(a: seq<string>, b: bool, text: string, pattern: string)
    requires !AnyContains(a, pattern) && pattern != [] && pattern[0] !in text
    ensures !AnyContains(a + If(b, text), pattern)
  {
    Silent(b, text, pattern);
    ContainsSplits(a, If(b, text), pattern);
  }

  lemma ReasonsMentionEarlyDataIff(private: bool, hosted: bool, coop: bool, fits: bool, praised: bool, early: bool)
    ensures AnyContains(ReasonTexts(private, hosted, coop, fits, praised, early), EARLY) <==> early
  {
    var a := If(private, "支持私人房间联机");
    var b := a + If(hosted, "可自建服或专用服务器");
    var c := b + If(coop, "具备在线合作体验");
    var d := c + If(fits, "人数匹配当前小组");
    var e := d + If(praised, "累计口碑稳定");
    Silent(private, "支持私人房间联机", EARLY);
    OnlyTheLast(a, hosted, "可自建服或专用服务器", EARLY);
    OnlyTheLast(b, coop, "具备在线合作体验", EARLY);
    OnlyTheLast(c, fits, "人数匹配当前小组", EARLY);
    OnlyTheLast(d, praised, "累计口碑稳定", EARLY);
    Speaks(early, "早期数据", EARLY);
    ContainsSplits(e, If(early, "早期数据"), EARLY);
  }

  lemma EarlierCautionsAreSilent(matched: bool, public: bool, ending: bool, unfit: bool)
    ensures !AnyContains(
              If(matched, "核心体验偏公共匹配") + If(public, "依赖公共世界玩家生态") + If(ending, "服务停运风险需关注")
              + If(unfit, "推荐人数与当前小组可能不匹配"),
              CONFIDENCE)
  {
    var a := If(matched, "核心体验偏公共匹配");
    var b := a + If(public, "依赖公共世界玩家生态");
    var c := b + If(ending, "服务停运风险需关注");
    Silent(matched, "核心体验偏公共匹配", CONFIDENCE);
    OnlyTheLast(a, public, "依赖公共世界玩家生态", CONFIDENCE);
    OnlyTheLast(b, ending, "服务停运风险需关注", CONFIDENCE);
    OnlyTheLast(c, unfit, "推荐人数与当前小组可能不匹配", CONFIDENCE);
  }

  lemma OneSpeaks(before: seq<string>, early: bool, text: string, mmo: bool, silent: string, pattern: string)
    requires !AnyContains(before, pattern) && Contains(text, pattern) && pattern != [] && pattern[0] !in silent
    ensures AnyContains(before + If(early, text) + If(mmo, silent), pattern) <==> early
  {
    Speaks(early, text, pattern);
    ContainsSplits(before, If(early, text), pattern);
    Silent(mmo, silent, pattern);
    ContainsSplits(before + If(early, text), If(mmo, silent), pattern);
  }

  lemma CautionsMentionConfidenceIff(matched: bool, public: bool, ending: bool, unfit: bool, early: bool, mmo: bool)
    ensures AnyContains(CautionTexts(matched, public, ending, unfit, early, mmo), CONFIDENCE) <==> early
  {
    EarlierCautionsAreSilent(matched, public, ending, unfit);
    OneSpeaks(
      If(matched, "核心体验偏公共匹配") + If(public, "依赖公共世界玩家生态") + If(ending, "服务停运风险需关注")
      + If(unfit, "推荐人数与当前小组可能不匹配"),
      early, "早期数据，置信度偏低", mmo, "MMO/公共世界主导", CONFIDENCE);
  }

  lemma FallbacksAreSilent(reasons: seq<string>, friendFit: real)
    ensures AnyContains(Spoken(reasons, friendFit), EARLY) == AnyContains(reasons, EARLY)
  {
    if reasons == [] {
      Silent(true, "熟人联机适配度尚可", EARLY);
      Silent(true, "进入候选池", EARLY);
    }
  }

  /** The explanation speaks of early data exactly when the confidence in the candidate's data is low. */
  lemma ExplanationAdmitsLowConfidenceIff(appId: U32, s: RankingSignals, score: ScoreBreakdown, mode: Option<string>)
    ensures var e := Explain(appId, s, score, mode);
            AnyContains(e.reasons, EARLY) || AnyContains(e.cautions, CONFIDENCE) <==> Unit(s.dataConfidence) < 0.45
  {
    var mp, early := s.multiplayer, Unit(s.dataConfidence) < 0.45;
    var private, hosted, coop :=
      Unit(mp.privateSession) >= 0.6, Unit(mp.selfHostOrDedicated) >= 0.6, Unit(mp.onlineCoop) >= 0.6;
    var fits, praised := Unit(mp.groupSizeFit) >= 0.7, Unit(s.quality) >= 0.75;
    ReasonsMentionEarlyDataIff(private, hosted, coop, fits, praised, early);
    FallbacksAreSilent(ReasonTexts(private, hosted, coop, fits, praised, early), score.friendFit);
    CautionsMentionConfidenceIff(
      Unit(mp.matchmakingCore) >= 0.6, Unit(mp.publicWorldDependency) >= 0.6, Unit(mp.serviceShutdownRisk) >= 0.5,
      Unit(mp.groupSizeMismatch) >= 0.4, early, mode.Some? && EqualIgnoringCase(mode.value, "mmo"));
  }

  /**
    The re-ranking recognises uncertain candidates by words in their explanations, and it
    recognises exactly the right ones: the exploration bonus can only go to a candidate whose
    data confidence is below 0.45, and to each of those that fits friends well.
   */
  lemma ExplorationFindsUncertainCandidates(section: FeedSection, prefs: UserPreferences, cfg: FeedConfig,
                                            c: RankingInput, selected: nat)
    ensures var r := Ranked(section, prefs, cfg, c);
            Explores(selected, EXPLORE_SLOTS, r) <==>
              selected < EXPLORE_SLOTS && r.score.friendFit > 0.55 && Unit(c.signals.dataConfidence) < 0.45
  {
    var s, r := PersonalSignals(prefs, c), Ranked(section, prefs, cfg, c);
    ExplanationAdmitsLowConfidenceIff(c.appId, s, r.score, c.dominantMode);
  }

  // ----- The feed as a whole -----

  predicate IsMac(platform: string) {
    Lower(platform) == "mac" || Lower(platform) == "macos"
  }

  /** What lets a candidate into the feed, where `a` and `b` are about the same thing if both are known. */
  ghost predicate Suits(prefs: UserPreferences, c: RankingInput) {
    var mp, a := c.signals.multiplayer, c.availability;
    && (forall ex <- prefs.excludedModes :: c.dominantMode.Some? ==> !Contains(Lower(c.dominantMode.value), Lower(ex)))
    && (c.recommendedMin.Some? && c.recommendedMax.Some? ==>
          c.recommendedMin.value <= prefs.partySize <= c.recommendedMax.value)
    && (|| Unit(mp.privateSession) + Unit(mp.onlineCoop) + Unit(mp.selfHostOrDedicated) + Unit(mp.matchmakingCore)
             > 0.05
        || Unit(c.signals.dataConfidence) >= 0.2)
    && (prefs.platforms != [] && a.platforms != [] ==>
          exists r <- prefs.platforms, p <- a.platforms :: Lower(r) == Lower(p) || (IsMac(r) && IsMac(p)))
    && (prefs.languages != [] && a.languages != [] ==>
          exists r <- prefs.languages, l <- a.languages :: Lower(r) == Lower(l))
    && (a.typicalSessionMinutesMin.Some? && a.typicalSessionMinutesMax.Some? ==>
          && a.typicalSessionMinutesMin.value <= prefs.sessionMinutesMax
          && prefs.sessionMinutesMin <= a.typicalSessionMinutesMax.value)
    && (a.isFree == Some(true)
        || (prefs.budgetMaxEachMinor.Some? && a.finalPriceMinor.Some? && a.priceCurrency.Some?
            && Lower(a.priceCurrency.value) == Lower(prefs.budgetCurrency) ==>
              a.finalPriceMinor.value <= prefs.budgetMaxEachMinor.value))
  }

  /** The filter lets through whatever suits, and gives the unknown the benefit of the doubt. */
  lemma FilterIsSuitability(prefs: UserPreferences, c: RankingInput)
    ensures HardFilter(prefs, c) <==> Suits(prefs, c)
  {
    var a := c.availability;
    assert PlatformMismatch(prefs.platforms, a.platforms) <==>
           prefs.platforms != [] && a.platforms != []
           && !exists r <- prefs.platforms, p <- a.platforms :: Lower(r) == Lower(p) || (IsMac(r) && IsMac(p)) by {
      forall r: string, p: string ensures PlatformMatches(r, p) <==> Lower(r) == Lower(p) || (IsMac(r) && IsMac(p)) {
      }
    }
  }

  lemma {:induction false} PassingIsExact(prefs: UserPreferences, candidates: seq<RankingInput>, c: RankingInput)
    ensures multiset(Passing(prefs, candidates))[c] == if HardFilter(prefs, c) then multiset(candidates)[c] else 0
  {
    if candidates != [] {
      var last := |candidates| - 1;
      PassingIsExact(prefs, candidates[..last], c);
      assert candidates == candidates[..last] + [candidates[last]];
    }
  }

  /** The feed is a rearrangement of the scored passing candidates, each as often as it came in. */
  lemma FeedIsExactlyThePassing(section: FeedSection, prefs: UserPreferences, cfg: FeedConfig,
      candidates: seq<RankingInput>, c: RankingInput)
    ensures var passing := Passing(prefs, candidates);
            var items := NaiveRerank(AllRanked(section, prefs, cfg, passing), cfg.mmrLambda, 2);
            && multiset(items) == multiset(AllRanked(section, prefs, cfg, passing))
            && |items| == |passing|
            && multiset(passing)[c] == if Suits(prefs, c) then multiset(candidates)[c] else 0
  {
    PassingIsExact(prefs, candidates, c);
    FilterIsSuitability(prefs, c);
    MmrLaws.RerankKeepsEverything(AllRanked(section, prefs, cfg, Passing(prefs, candidates)), cfg.mmrLambda,
      EXPLORE_SLOTS);
  }
}
