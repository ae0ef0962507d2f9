/** The deterministic scores of the recommender: signals in, numbers in [0, 1] out. */
module Scoring {
  import opened Outcomes
  import opened MachineInts
  import opened Reals

  datatype FeedSection = RecentRelease | Upcoming | PopularLegacy | ClassicLegacy

  datatype MultiplayerSignals = MultiplayerSignals(
    privateSession: real,
    selfHostOrDedicated: real,
    onlineCoop: real,
    groupSizeFit: real,
    lowPublicPopulationDependency: real,
    dropInOut: real,
    crossPlatformFit: real,
    matchmakingCore: real,
    publicWorldDependency: real,
    groupSizeMismatch: real,
    serviceShutdownRisk: real,
    externalAccountFriction: real,
    platformOrAnticheatRestriction: real)

  datatype RankingSignals = RankingSignals(
    multiplayer: MultiplayerSignals,
    quality: real,
    popularity: real,
    momentum: real,
    evidence: real,
    freshness: real,
    dataConfidence: real,
    demoPlayability: real,
    releaseDateConfidence: real,
    releaseProximity: real,
    studioPrior: real,
    longevity: real,
    maintenanceHealth: real,
    risk: real,
    personalFit: real)

  datatype ScoreBreakdown = ScoreBreakdown(
    friendFit: real,
    sectionScore: real,
    personalizedScore: real,
    finalScore: real)

  datatype AiAdjustment = AiAdjustment(fit: real, confidence: real)

  function Welcome(s: MultiplayerSignals): real {
    0.22 * Unit(s.privateSession) + 0.20 * Unit(s.selfHostOrDedicated) + 0.18 * Unit(s.onlineCoop)
    + 0.15 * Unit(s.groupSizeFit) + 0.10 * Unit(s.lowPublicPopulationDependency)
    + 0.08 * Unit(s.dropInOut) + 0.07 * Unit(s.crossPlatformFit)
  }

  function Unwelcome(s: MultiplayerSignals): real {
    0.18 * Unit(s.matchmakingCore) + 0.15 * Unit(s.publicWorldDependency) + 0.10 * Unit(s.groupSizeMismatch)
    + 0.08 * Unit(s.serviceShutdownRisk) + 0.06 * Unit(s.externalAccountFriction)
    + 0.05 * Unit(s.platformOrAnticheatRestriction)
  }

  function FriendFit(s: MultiplayerSignals): real {
    Unit(Welcome(s) - Unwelcome(s))
  }

  function SectionScore(section: FeedSection, s: RankingSignals, friendFit: real): real {
    var raw := match section
      case RecentRelease =>
        0.35 * friendFit + 0.22 * Unit(s.quality) + 0.15 * Unit(s.momentum) + 0.10 * Unit(s.evidence)
        + 0.10 * Unit(s.freshness) + 0.08 * Unit(s.dataConfidence)
      case Upcoming =>
        0.40 * friendFit + 0.25 * Unit(s.demoPlayability) + 0.12 * Unit(s.releaseDateConfidence)
        + 0.10 * Unit(s.releaseProximity) + 0.08 * Unit(s.studioPrior) + 0.05 * Unit(s.dataConfidence)
      case PopularLegacy =>
        0.35 * friendFit + 0.32 * Unit(s.popularity) + 0.12 * Unit(s.quality) + 0.10 * Unit(s.momentum)
        + 0.11 * Unit(s.dataConfidence)
      case ClassicLegacy =>
        0.40 * friendFit + 0.30 * Unit(s.quality) + 0.18 * Unit(s.evidence) + 0.08 * Unit(s.longevity)
        + 0.04 * Unit(s.maintenanceHealth);
    Unit(raw - Unit(s.risk))
  }

  /** The preference fit weighs 0.25. */
  function BlendPersonalFit(base: real, personalFit: real): real {
    Unit(0.75 * Unit(base) + 0.25 * Unit(personalFit))
  }

  /** The model's opinion weighs 0.15. */
  function BlendAi(base: real, ai: Option<AiAdjustment>): real {
    if ai.None? then Unit(base)
    else Blend(Unit(base), Unit(ai.value.fit), Unit(ai.value.confidence))
  }

  function Blend(base: real, fit: real, confidence: real): real {
    var effective := confidence * fit + (1.0 - confidence) * base;
    Unit(0.85 * base + 0.15 * effective)
  }

  function Score(section: FeedSection, s: RankingSignals, ai: Option<AiAdjustment>): ScoreBreakdown {
    var friendFit := FriendFit(s.multiplayer);
    var sectionScore := SectionScore(section, s, friendFit);
    var personalizedScore := BlendPersonalFit(sectionScore, s.personalFit);
    ScoreBreakdown(friendFit, sectionScore, personalizedScore, BlendAi(personalizedScore, ai))
  }

  /**
    The model's opinion moves a score by at most 0.15 times its confidence, and never
    past the opinion itself.
   */
  lemma AiBlendIsBounded(base: real, ai: AiAdjustment)
    ensures var b, f, blended := Unit(base), Unit(ai.fit), BlendAi(base, Some(ai));
            && Abs(blended - b) <= 0.15 * Unit(ai.confidence)
            && MinReal(b, f) <= blended <= MaxReal(b, f)
  {
    BlendIsBounded(Unit(base), Unit(ai.fit), Unit(ai.confidence));
  }

  lemma BlendIsBounded(b: real, f: real, c: real)
    requires 0.0 <= b <= 1.0 && 0.0 <= f <= 1.0 && 0.0 <= c <= 1.0
    ensures Abs(Blend(b, f, c) - b) <= 0.15 * c && MinReal(b, f) <= Blend(b, f, c) <= MaxReal(b, f)
  {
    var shift := Mix(b, f, c);
    BlendArithmetic(b, f, c, c * f + (1.0 - c) * b, shift);
  }

  lemma BlendArithmetic(b: real, f: real, c: real, effective: real, shift: real)
    requires 0.0 <= b <= 1.0 && 0.0 <= f <= 1.0 && effective == b + shift && Abs(shift) <= c
    requires f >= b ==> 0.0 <= shift <= f - b
    requires f < b ==> f - b <= shift <= 0.0
    ensures var blended := Unit(0.85 * b + 0.15 * effective);
            Abs(blended - b) <= 0.15 * c && MinReal(b, f) <= blended <= MaxReal(b, f)
  {
  }

  // ----- How scores respond to signals -----

  /** Every welcome signal at least as strong, every unwelcome one at most as strong. */
  ghost predicate Friendlier(s: MultiplayerSignals, t: MultiplayerSignals) {
    && s.privateSession <= t.privateSession && s.selfHostOrDedicated <= t.selfHostOrDedicated
    && s.onlineCoop <= t.onlineCoop && s.groupSizeFit <= t.groupSizeFit
    && s.lowPublicPopulationDependency <= t.lowPublicPopulationDependency
    && s.dropInOut <= t.dropInOut && s.crossPlatformFit <= t.crossPlatformFit
    && s.matchmakingCore >= t.matchmakingCore && s.publicWorldDependency >= t.publicWorldDependency
    && s.groupSizeMismatch >= t.groupSizeMismatch && s.serviceShutdownRisk >= t.serviceShutdownRisk
    && s.externalAccountFriction >= t.externalAccountFriction
    && s.platformOrAnticheatRestriction >= t.platformOrAnticheatRestriction
  }

  lemma UnitGrows(x: real, y: real)
    requires x <= y
    ensures 0.0 <= Unit(x) <= Unit(y) <= 1.0
  {
  }

  lemma WelcomeGrows(s: MultiplayerSignals, t: MultiplayerSignals)
    requires Friendlier(s, t)
    ensures Welcome(s) <= Welcome(t)
  {
    UnitGrows(s.privateSession, t.privateSession);
    UnitGrows(s.selfHostOrDedicated, t.selfHostOrDedicated);
    UnitGrows(s.onlineCoop, t.onlineCoop);
    UnitGrows(s.groupSizeFit, t.groupSizeFit);
    UnitGrows(s.lowPublicPopulationDependency, t.lowPublicPopulationDependency);
    UnitGrows(s.dropInOut, t.dropInOut);
    UnitGrows(s.crossPlatformFit, t.crossPlatformFit);
  }

  lemma UnwelcomeFalls(s: MultiplayerSignals, t: MultiplayerSignals)
    requires Friendlier(s, t)
    ensures Unwelcome(s) >= Unwelcome(t)
  {
    UnitGrows(t.matchmakingCore, s.matchmakingCore);
    UnitGrows(t.publicWorldDependency, s.publicWorldDependency);
    UnitGrows(t.groupSizeMismatch, s.groupSizeMismatch);
    UnitGrows(t.serviceShutdownRisk, s.serviceShutdownRisk);
    UnitGrows(t.externalAccountFriction, s.externalAccountFriction);
    UnitGrows(t.platformOrAnticheatRestriction, s.platformOrAnticheatRestriction);
  }

  /** The fit grows with every welcome signal and falls with every unwelcome one. */
  lemma FriendFitResponds(s: MultiplayerSignals, t: MultiplayerSignals)
    requires Friendlier(s, t)
    ensures FriendFit(s) <= FriendFit(t)
  {
    WelcomeGrows(s, t);
    UnwelcomeFalls(s, t);
    UnitGrows(Welcome(s) - Unwelcome(s), Welcome(t) - Unwelcome(t));
  }

  /** In every section a friendlier game with the same other signals scores at least as well, in [0, 1]. */
  lemma FriendlierScoresHigher(section: FeedSection, s: RankingSignals, better: MultiplayerSignals,
      ai: Option<AiAdjustment>)
    requires Friendlier(s.multiplayer, better)
    ensures var less, more := Score(section, s, ai), Score(section, s.(multiplayer := better), ai);
            && 0.0 <= less.sectionScore <= more.sectionScore <= 1.0
            && 0.0 <= less.personalizedScore <= more.personalizedScore <= 1.0
            && 0.0 <= less.finalScore <= more.finalScore <= 1.0
  {
    FriendFitResponds(s.multiplayer, better);
    var less, more := Score(section, s, ai), Score(section, s.(multiplayer := better), ai);
    SectionGrows(section, s, s.(multiplayer := better), less.friendFit, more.friendFit);
    if ai.Some? {
      BlendGrows(less.personalizedScore, more.personalizedScore, Unit(ai.value.fit), Unit(ai.value.confidence));
    }
  }

  lemma SectionGrows(section: FeedSection, s: RankingSignals, t: RankingSignals, low: real, high: real)
    requires t == s.(multiplayer := t.multiplayer) && low <= high
    ensures SectionScore(section, s, low) <= SectionScore(section, t, high)
  {
  }

  lemma BlendGrows(low: real, high: real, fit: real, confidence: real)
    requires 0.0 <= low <= high <= 1.0 && 0.0 <= fit <= 1.0 && 0.0 <= confidence <= 1.0
    ensures Blend(low, fit, confidence) <= Blend(high, fit, confidence)
  {
    ScaleMono(1.0 - confidence, low, high);
    SharesGrow(low, high, confidence * fit + (1.0 - confidence) * low, confidence * fit + (1.0 - confidence) * high);
  }

  lemma SharesGrow(low: real, high: real, less: real, more: real)
    requires low <= high && less <= more
    ensures Unit(0.85 * low + 0.15 * less) <= Unit(0.85 * high + 0.15 * more)
  {
  }
}
