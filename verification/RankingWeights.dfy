/** How much each signal counts towards a feed entry, and what an entry is made of. */
module RankingWeights {
  import opened Outcomes
  import opened MachineInts
  import opened Reals
  import opened Scoring
  import opened Mmr
  import opened Ranking
  import RankingLaws
  import opened Text

  predicate Proper(x: real) {
    0.0 <= x <= 1.0
  }

  predicate Inside(x: real) {
    0.0 < x < 1.0
  }

  ghost predicate ProperSignals(s: MultiplayerSignals) {
    && Proper(s.privateSession) && Proper(s.selfHostOrDedicated) && Proper(s.onlineCoop) && Proper(s.groupSizeFit)
    && Proper(s.lowPublicPopulationDependency) && Proper(s.dropInOut) && Proper(s.crossPlatformFit)
    && Proper(s.matchmakingCore) && Proper(s.publicWorldDependency) && Proper(s.groupSizeMismatch)
    && Proper(s.serviceShutdownRisk) && Proper(s.externalAccountFriction) && Proper(s.platformOrAnticheatRestriction)
  }

  /** Between the bounds a change of signals changes the fit by the sum of the changes, each with its own weight. */
  lemma FitWeights(s: MultiplayerSignals, t: MultiplayerSignals)
    requires ProperSignals(s) && ProperSignals(t) && Inside(FriendFit(s)) && Inside(FriendFit(t))
    ensures FriendFit(t) - FriendFit(s) ==
              0.22 * (t.privateSession - s.privateSession) + 0.20 * (t.selfHostOrDedicated - s.selfHostOrDedicated)
              + 0.18 * (t.onlineCoop - s.onlineCoop) + 0.15 * (t.groupSizeFit - s.groupSizeFit)
              + 0.10 * (t.lowPublicPopulationDependency - s.lowPublicPopulationDependency)
              + 0.08 * (t.dropInOut - s.dropInOut) + 0.07 * (t.crossPlatformFit - s.crossPlatformFit)
              - 0.18 * (t.matchmakingCore - s.matchmakingCore)
              - 0.15 * (t.publicWorldDependency - s.publicWorldDependency)
              - 0.10 * (t.groupSizeMismatch - s.groupSizeMismatch)
              - 0.08 * (t.serviceShutdownRisk - s.serviceShutdownRisk)
              - 0.06 * (t.externalAccountFriction - s.externalAccountFriction)
              - 0.05 * (t.platformOrAnticheatRestriction - s.platformOrAnticheatRestriction)
  {
  }

  ghost predicate ProperRanking(s: RankingSignals) {
    && Proper(s.quality) && Proper(s.popularity) && Proper(s.momentum) && Proper(s.evidence) && Proper(s.freshness)
    && Proper(s.dataConfidence) && Proper(s.demoPlayability) && Proper(s.releaseDateConfidence)
    && Proper(s.releaseProximity) && Proper(s.studioPrior) && Proper(s.longevity) && Proper(s.maintenanceHealth)
    && Proper(s.risk)
  }

  /** The same for the score of a section. */
  lemma SectionWeights(section: FeedSection, s: RankingSignals, t: RankingSignals, f: real, g: real)
    requires ProperRanking(s) && ProperRanking(t)
    requires Inside(SectionScore(section, s, f)) && Inside(SectionScore(section, t, g))
    ensures SectionScore(section, t, g) - SectionScore(section, s, f) + (t.risk - s.risk) ==
              match section
              case RecentRelease =>
                0.35 * (g - f) + 0.22 * (t.quality - s.quality) + 0.15 * (t.momentum - s.momentum)
                + 0.10 * (t.evidence - s.evidence) + 0.10 * (t.freshness - s.freshness)
                + 0.08 * (t.dataConfidence - s.dataConfidence)
              case Upcoming =>
                0.40 * (g - f) + 0.25 * (t.demoPlayability - s.demoPlayability)
                + 0.12 * (t.releaseDateConfidence - s.releaseDateConfidence)
                + 0.10 * (t.releaseProximity - s.releaseProximity) + 0.08 * (t.studioPrior - s.studioPrior)
                + 0.05 * (t.dataConfidence - s.dataConfidence)
              case PopularLegacy =>
                0.35 * (g - f) + 0.32 * (t.popularity - s.popularity) + 0.12 * (t.quality - s.quality)
                + 0.10 * (t.momentum - s.momentum) + 0.11 * (t.dataConfidence - s.dataConfidence)
              case ClassicLegacy =>
                0.40 * (g - f) + 0.30 * (t.quality - s.quality) + 0.18 * (t.evidence - s.evidence)
                + 0.08 * (t.longevity - s.longevity) + 0.04 * (t.maintenanceHealth - s.maintenanceHealth)
  {
  }

  /** What a group that shares `coop` of its taste with cooperation makes of a change of signals. */
  ghost function TasteShift(coop: real, host: real, s: MultiplayerSignals, t: MultiplayerSignals): real {
    coop * (0.55 * ((t.onlineCoop - s.onlineCoop) + (t.privateSession - s.privateSession))
            - 0.5 * (t.publicWorldDependency - s.publicWorldDependency))
    + (1.0 - coop) * (0.35 * (t.matchmakingCore - s.matchmakingCore))
    + host * (0.55 * (t.selfHostOrDedicated - s.selfHostOrDedicated))
  }

  /** The preferences steer how much each signal counts towards the gameplay fit. */
  lemma GameplayWeights(prefs: UserPreferences, s: MultiplayerSignals, t: MultiplayerSignals, f: real, g: real)
    requires ProperSignals(s) && ProperSignals(t)
    requires Inside(GameplayFit(prefs, s, f)) && Inside(GameplayFit(prefs, t, g))
    ensures GameplayFit(prefs, t, g) - GameplayFit(prefs, s, f) ==
              TasteShift(1.0 - Unit(prefs.coopCompetitive), Unit(prefs.selfHostingWillingness), s, t)
              - 0.3 * (t.serviceShutdownRisk - s.serviceShutdownRisk) + 0.15 * (g - f)
  {
  }

  const NO_SIGNALS := MultiplayerSignals(0.0, 0.0, 0.0, 0.0, 0.0, 0.0, 0.0, 0.0, 0.0, 0.0, 0.0, 0.0, 0.0)

  /** Where the scales begin: private sessions alone count their weight, and no gameplay at all counts a quarter. */
  lemma ScalesBegin(x: real, prefs: UserPreferences)
    requires Proper(x)
    ensures FriendFit(NO_SIGNALS.(privateSession := x)) == 0.22 * x
    ensures GameplayFit(prefs, NO_SIGNALS, 0.0) == 0.25
  {
    NothingWeighs(1.0 - Unit(prefs.coopCompetitive), Unit(prefs.coopCompetitive), Unit(prefs.selfHostingWillingness));
  }

  lemma NothingWeighs(coop: real, competitive: real, host: real)
    ensures var none := Unit(0.0);
            0.55 * (none * coop + none * coop + none * host) + 0.35 * (none * competitive) + 0.25
            - (none * coop * 0.5 + none * 0.3) + 0.15 * 0.0 == 0.25
  {
  }

  /** A section's score begins with the friend fit's share of it, less the risk. */
  lemma SectionScalesBegin(section: FeedSection, s: RankingSignals, f: real)
    requires Proper(f) && Proper(s.risk)
    requires s.quality == s.popularity == s.momentum == s.evidence == s.freshness == s.dataConfidence == 0.0
    requires s.demoPlayability == s.releaseDateConfidence == s.releaseProximity == s.studioPrior == 0.0
    requires s.longevity == s.maintenanceHealth == 0.0
    ensures SectionScore(section, s, f) ==
              MaxReal(0.0, (if section.Upcoming? || section.ClassicLegacy? then 0.40 * f else 0.35 * f) - s.risk)
  {
  }

  // ----- One entry of the feed -----

  /** Only the fit to the group and to the preferences is personal. */
  ghost predicate OnlyPersonalized(s: RankingSignals, t: RankingSignals) {
    && t == s.(multiplayer := t.multiplayer, personalFit := t.personalFit)
    && t.multiplayer == s.multiplayer.(groupSizeFit := t.multiplayer.groupSizeFit,
                                       groupSizeMismatch := t.multiplayer.groupSizeMismatch,
                                       crossPlatformFit := t.multiplayer.crossPlatformFit)
  }

  /** A fit shifted by an adjustment, which counts for at most a half. */
  ghost predicate ShiftedFit(fit: real, adjustment: real, shifted: real) {
    if adjustment > 0.5 then shifted == MinReal(1.0, fit + 0.5)
    else if adjustment < -0.5 then shifted == MaxReal(0.0, fit - 0.5)
    else shifted == MinReal(1.0, MaxReal(0.0, fit + adjustment))
  }

  lemma ShiftIsClamped(g: real, a: real, adjustment: real)
    requires Proper(g) && Proper(a)
    ensures Proper(0.8 * g + 0.2 * a)
    ensures ShiftedFit(0.8 * g + 0.2 * a, adjustment, Unit(Unit(0.8 * g + 0.2 * a) + Clamp(adjustment, -0.5, 0.5)))
  {
  }

  lemma SizeIsNoGameplay(prefs: UserPreferences, mp: MultiplayerSignals, fit: real, mismatch: real)
    ensures GameplayFit(prefs, mp.(groupSizeFit := fit, groupSizeMismatch := mismatch), fit)
         == GameplayFit(prefs, mp, fit)
  {
  }

  lemma GameplayIsProper(prefs: UserPreferences, mp: MultiplayerSignals, fit: real)
    ensures Proper(GameplayFit(prefs, mp, fit))
  {
  }

  lemma PersonalizationIsComposed(prefs: UserPreferences, c: RankingInput)
    ensures var s := ApplyPersonalization(prefs, c.signals, c.recommendedMin, c.recommendedMax, c.availability);
            && OnlyPersonalized(c.signals, s)
            && s.personalFit == Unit(0.8 * GameplayFit(prefs, c.signals.multiplayer, s.multiplayer.groupSizeFit)
                                     + 0.2 * AvailabilityShare(prefs, c.availability))
  {
    var (fit, mismatch) := GroupSize(prefs.partySize, c.recommendedMin, c.recommendedMax);
    SizeIsNoGameplay(prefs, c.signals.multiplayer, fit, mismatch);
  }

  /** The preference fit is gameplay and availability four to one, shifted by the candidate's own adjustment. */
  lemma PersonalFitIsComposed(prefs: UserPreferences, c: RankingInput)
    ensures var s := PersonalSignals(prefs, c);
            && OnlyPersonalized(c.signals, s)
            && ShiftedFit(0.8 * GameplayFit(prefs, c.signals.multiplayer, s.multiplayer.groupSizeFit)
                          + 0.2 * AvailabilityShare(prefs, c.availability), c.personalAdjustment, s.personalFit)
  {
    var sizeFit := PersonalSignals(prefs, c).multiplayer.groupSizeFit;
    RankingLaws.FilterAndFitAgree(prefs, c.availability);
    PersonalizationIsComposed(prefs, c);
    GameplayIsProper(prefs, c.signals.multiplayer, sizeFit);
    ShiftIsClamped(GameplayFit(prefs, c.signals.multiplayer, sizeFit), AvailabilityShare(prefs, c.availability),
                   c.personalAdjustment);
  }

  /** Which of the preferred platforms the game supports. */
  ghost function Marks(prefs: UserPreferences, available: seq<string>): seq<bool> {
    seq(|prefs.platforms|, i requires 0 <= i < |prefs.platforms| =>
      exists a <- available :: PlatformMatches(prefs.platforms[i], a))
  }

  ghost function Count(marks: seq<bool>): nat {
    if marks == [] then 0 else Count(marks[..|marks| - 1]) + Flag(marks[|marks| - 1])
  }

  lemma {:induction false} CountIff(marks: seq<bool>)
    ensures Count(marks) <= |marks|
    ensures Count(marks) == |marks| <==> false !in marks
    ensures Count(marks) == 0 <==> true !in marks
  {
    if marks != [] {
      var before, last := marks[..|marks| - 1], marks[|marks| - 1];
      assert marks == before + [last];
      CountIff(before);
    }
  }

  lemma {:induction false} SupportedIsCount(prefs: UserPreferences, available: seq<string>, n: nat)
    requires n <= |prefs.platforms|
    ensures Supported(prefs, available, n) == Count(Marks(prefs, available)[..n])
  {
    if n > 0 {
      SupportedIsCount(prefs, available, n - 1);
      assert Marks(prefs, available)[..n][..n - 1] == Marks(prefs, available)[..n - 1];
    }
  }

  /** The share of the marks that are set: one if all are, and zero if none is. */
  ghost predicate IsShareOf(fit: real, marks: seq<bool>) {
    && fit * |marks| as real == Count(marks) as real
    && (fit == 1.0 <==> false !in marks)
    && (fit == 0.0 <==> true !in marks)
  }

  lemma ShareOf(k: nat, n: nat)
    requires k <= n && n > 0
    ensures var share := Unit(k as real / n as real);
            share * n as real == k as real && (share == 1.0 <==> k == n) && (share == 0.0 <==> k == 0)
  {
    var share := k as real / n as real;
    assert share * n as real == k as real;
    Cancel(0.0, share, n as real);
    Cancel(share, 1.0, n as real);
  }

  lemma CountIsShare(marks: seq<bool>)
    requires marks != []
    ensures IsShareOf(Unit(Count(marks) as real / |marks| as real), marks)
  {
    var k, n, all, none := Count(marks), |marks|, false !in marks, true !in marks;
    assert k <= n && (k == n <==> all) && (k == 0 <==> none) by {
      CountIff(marks);
    }
    ShareOf(k, n);
  }

  lemma SupportedIsShare(prefs: UserPreferences, a: seq<string>)
    ensures Supported(prefs, a, |prefs.platforms|) == Count(Marks(prefs, a)) && |Marks(prefs, a)| == |prefs.platforms|
  {
    SupportedIsCount(prefs, a, |prefs.platforms|);
    assert Marks(prefs, a)[..|prefs.platforms|] == Marks(prefs, a);
  }

  /** The platforms that the game supports speak for playing together, if both sides say something about platforms. */
  lemma CrossPlatformIff(prefs: UserPreferences, c: RankingInput)
    ensures var fit, a := PersonalSignals(prefs, c).multiplayer.crossPlatformFit, c.availability.platforms;
            if prefs.platforms == [] || a == [] then fit == c.signals.multiplayer.crossPlatformFit
            else IsShareOf(fit, Marks(prefs, a))
  {
    if prefs.platforms != [] && c.availability.platforms != [] {
      SupportedIsShare(prefs, c.availability.platforms);
      CountIsShare(Marks(prefs, c.availability.platforms));
    }
  }

  /** The votes' share of their weight is n out of n + saturation. */
  lemma BoostIsExact(n: U32, weight: real, saturation: U32)
    ensures n == 0 || saturation == 0 || weight <= 0.0 ==> PlayIntentBoost(n, weight, saturation) == 0.0
    ensures n > 0 && saturation > 0 && 0.0 < weight <= 1.0 ==>
              PlayIntentBoost(n, weight, saturation) * (n + saturation) as real == weight * n as real
  {
    if n > 0 && saturation > 0 && 0.0 < weight <= 1.0 {
      var total, share := (n + saturation) as real, VoteShare(n, saturation);
      assert share * total == n as real;
      assert weight * share * total == weight * (share * total);
    }
  }

  /** An entry carries its candidate's names, and its score is section and personal fit three to one, plus the votes. */
  lemma EntryIsComposed(section: FeedSection, prefs: UserPreferences, cfg: FeedConfig, c: RankingInput)
    ensures var r, s := Ranked(section, prefs, cfg, c), PersonalSignals(prefs, c);
            && r.appId == c.appId && r.name == c.name && r.dominantMode == c.dominantMode
            && r.recommendedMin == c.recommendedMin && r.recommendedMax == c.recommendedMax
            && r.algorithmVersion == cfg.version
            && r.score.friendFit == FriendFit(s.multiplayer)
            && r.score.sectionScore == SectionScore(section, s, r.score.friendFit)
            && r.score.personalizedScore == 0.75 * r.score.sectionScore + 0.25 * s.personalFit
            && r.score.finalScore ==
                 MinReal(1.0, r.score.personalizedScore
                              + PlayIntentBoost(c.playIntentCount, cfg.playIntentWeight, cfg.playIntentSaturation))
  {
    RankingLaws.BoostIsMonotonic(c.playIntentCount, c.playIntentCount, cfg.playIntentWeight, cfg.playIntentSaturation);
  }

  // ----- Explanations -----

  /** Of these texts the list holds exactly those that apply. */
  ghost predicate SaysWhatApplies(said: seq<string>, texts: seq<string>, apply: seq<bool>) {
    && |texts| == |apply|
    && (forall i | 0 <= i < |texts| :: texts[i] in said <==> apply[i])
    && (forall t <- said :: t in texts)
  }

  /** The texts that apply, each in a list of its own. */
  ghost function Parts(texts: seq<string>, apply: seq<bool>): seq<seq<string>>
    requires |texts| == |apply|
  {
    seq(|texts|, i requires 0 <= i < |texts| => If(apply[i], texts[i]))
  }

  ghost function Flat(parts: seq<seq<string>>): seq<string> {
    if parts == [] then [] else Flat(parts[..|parts| - 1]) + parts[|parts| - 1]
  }

  ghost predicate AllDiffer(texts: seq<string>) {
    forall i, j :: 0 <= i < j < |texts| ==> texts[i] != texts[j]
  }

  lemma {:induction false} PartsApply(texts: seq<string>, apply: seq<bool>)
    requires |texts| == |apply| && AllDiffer(texts)
    ensures SaysWhatApplies(Flat(Parts(texts, apply)), texts, apply)
  {
    if texts != [] {
      var n := |texts| - 1;
      PartsApply(texts[..n], apply[..n]);
      assert Parts(texts, apply)[..n] == Parts(texts[..n], apply[..n]);
      assert texts == texts[..n] + [texts[n]];
      assert texts[n] !in texts[..n];
      forall i | 0 <= i < |texts| ensures texts[i] in Flat(Parts(texts, apply)) <==> apply[i] {
        if i < n {
          assert texts[..n][i] == texts[i];
        }
      }
    }
  }

  lemma FlatMore(parts: seq<seq<string>>, p: seq<string>)
    ensures Flat(parts + [p]) == Flat(parts) + p
  {
    assert (parts + [p])[..|parts|] == parts;
  }

  lemma FlatTwo(p: seq<string>, q: seq<string>)
    ensures Flat([p, q]) == p + q
  {
    FlatMore([], p);
    FlatMore([p], q);
    assert [] + [p] == [p] && [p] + [q] == [p, q];
  }

  lemma FlatFour(p: seq<string>, q: seq<string>, r: seq<string>, s: seq<string>)
    ensures Flat([p, q, r, s]) == p + q + r + s
  {
    FlatTwo(p, q);
    FlatMore([p, q], r);
    FlatMore([p, q, r], s);
    assert [p, q] + [r] == [p, q, r] && [p, q, r] + [s] == [p, q, r, s];
  }

  lemma FlatSix(p: seq<string>, q: seq<string>, r: seq<string>, s: seq<string>, t: seq<string>, u: seq<string>)
    ensures Flat([p, q, r, s, t, u]) == p + q + r + s + t + u
  {
    FlatFour(p, q, r, s);
    FlatMore([p, q, r, s], t);
    FlatMore([p, q, r, s, t], u);
    assert [p, q, r, s] + [t] == [p, q, r, s, t] && [p, q, r, s, t] + [u] == [p, q, r, s, t, u];
  }

  lemma SixParts(t: seq<string>, a: seq<bool>)
    requires |t| == |a| == 6
    ensures Flat(Parts(t, a)) == If(a[0], t[0]) + If(a[1], t[1]) + If(a[2], t[2]) + If(a[3], t[3]) + If(a[4], t[4])
                                 + If(a[5], t[5])
  {
    FlatSix(If(a[0], t[0]), If(a[1], t[1]), If(a[2], t[2]), If(a[3], t[3]), If(a[4], t[4]), If(a[5], t[5]));
    assert Parts(t, a) ==
           [If(a[0], t[0]), If(a[1], t[1]), If(a[2], t[2]), If(a[3], t[3]), If(a[4], t[4]), If(a[5], t[5])];
  }

  lemma FourParts(t: seq<string>, a: seq<bool>)
    requires |t| == |a| == 4
    ensures Flat(Parts(t, a)) == If(a[0], t[0]) + If(a[1], t[1]) + If(a[2], t[2]) + If(a[3], t[3])
  {
    FlatFour(If(a[0], t[0]), If(a[1], t[1]), If(a[2], t[2]), If(a[3], t[3]));
    assert Parts(t, a) == [If(a[0], t[0]), If(a[1], t[1]), If(a[2], t[2]), If(a[3], t[3])];
  }

  const REASONS := ["支持私人房间联机", "可自建服或专用服务器", "具备在线合作体验", "人数匹配当前小组", "累计口碑稳定", "早期数据"]
  const CAUTIONS := ["核心体验偏公共匹配", "依赖公共世界玩家生态", "服务停运风险需关注", "推荐人数与当前小组可能不匹配",
                     "早期数据，置信度偏低", "MMO/公共世界主导"]

  lemma TextsDiffer()
    ensures AllDiffer(REASONS) && AllDiffer(CAUTIONS)
  {
    assert REASONS[0][0] == '支' && REASONS[1][0] == '可' && REASONS[2][0] == '具';
    assert REASONS[3][0] == '人' && REASONS[4][0] == '累' && REASONS[5][0] == '早';
    assert CAUTIONS[0][0] == '核' && CAUTIONS[1][0] == '依' && CAUTIONS[2][0] == '服';
    assert CAUTIONS[3][0] == '推' && CAUTIONS[4][0] == '早' && CAUTIONS[5][0] == 'M';
  }

  lemma SixTextsApply(why: seq<bool>)
    requires |why| == 6
    ensures SaysWhatApplies(ReasonTexts(why[0], why[1], why[2], why[3], why[4], why[5]), REASONS, why)
    ensures SaysWhatApplies(CautionTexts(why[0], why[1], why[2], why[3], why[4], why[5]), CAUTIONS, why)
  {
    TextsDiffer();
    PartsApply(REASONS, why);
    PartsApply(CAUTIONS, why);
    SixParts(REASONS, why);
    SixParts(CAUTIONS, why);
  }

  lemma SilentIff(said: seq<string>, texts: seq<string>, why: seq<bool>)
    requires SaysWhatApplies(said, texts, why)
    ensures said == [] <==> true !in why
  {
    if true in why {
      var i :| 0 <= i < |why| && why[i];
      assert texts[i] in said;
    }
    if said != [] {
      assert said[0] in texts;
      var i :| 0 <= i < |texts| && texts[i] == said[0];
      assert why[i];
    }
  }

  /** Exactly the reasons that apply are given, and if none does, a word on how well friends fit. */
  lemma ReasonsApply(appId: U32, s: RankingSignals, score: ScoreBreakdown, mode: Option<string>)
    ensures var mp, said := s.multiplayer, Explain(appId, s, score, mode).reasons;
            var why := [Unit(mp.privateSession) >= 0.6, Unit(mp.selfHostOrDedicated) >= 0.6, Unit(mp.onlineCoop) >= 0.6,
                        Unit(mp.groupSizeFit) >= 0.7, Unit(s.quality) >= 0.75, Unit(s.dataConfidence) < 0.45];
            if true in why then SaysWhatApplies(said, REASONS, why)
            else said == [if score.friendFit >= 0.5 then "熟人联机适配度尚可" else "进入候选池"]
  {
    var mp := s.multiplayer;
    var why := [Unit(mp.privateSession) >= 0.6, Unit(mp.selfHostOrDedicated) >= 0.6, Unit(mp.onlineCoop) >= 0.6,
                Unit(mp.groupSizeFit) >= 0.7, Unit(s.quality) >= 0.75, Unit(s.dataConfidence) < 0.45];
    SixTextsApply(why);
    SilentIff(ReasonTexts(why[0], why[1], why[2], why[3], why[4], why[5]), REASONS, why);
  }

  /** Exactly the cautions that apply are given. */
  lemma CautionsApply(appId: U32, s: RankingSignals, score: ScoreBreakdown, mode: Option<string>)
    ensures var mp, said := s.multiplayer, Explain(appId, s, score, mode).cautions;
            var but := [Unit(mp.matchmakingCore) >= 0.6, Unit(mp.publicWorldDependency) >= 0.6,
                        Unit(mp.serviceShutdownRisk) >= 0.5, Unit(mp.groupSizeMismatch) >= 0.4,
                        Unit(s.dataConfidence) < 0.45, mode.Some? && Lower(mode.value) == Lower("mmo")];
            SaysWhatApplies(said, CAUTIONS, but)
  {
    var mp := s.multiplayer;
    SixTextsApply([Unit(mp.matchmakingCore) >= 0.6, Unit(mp.publicWorldDependency) >= 0.6,
                   Unit(mp.serviceShutdownRisk) >= 0.5, Unit(mp.groupSizeMismatch) >= 0.4,
                   Unit(s.dataConfidence) < 0.45, mode.Some? && Lower(mode.value) == Lower("mmo")]);
  }

  ghost function Sources(id: string): seq<string> {
    ["feature:private_session:" + id, "feature:self_hosted_server:" + id, "feature:online_coop:" + id,
     "review:" + id + ":summary"]
  }

  lemma SourcesDiffer(id: string)
    ensures AllDiffer(Sources(id))
  {
    assert Sources(id)[0][8] == 'p' && Sources(id)[1][8] == 's' && Sources(id)[2][8] == 'o';
    assert Sources(id)[0][0] == Sources(id)[1][0] == Sources(id)[2][0] == 'f' && Sources(id)[3][0] == 'r';
  }

  /** Every claim that has a source names it, under the game's own number. */
  lemma EvidenceApplies(appId: U32, s: RankingSignals, score: ScoreBreakdown, mode: Option<string>)
    ensures var mp := s.multiplayer;
            SaysWhatApplies(Explain(appId, s, score, mode).evidenceIds, Sources(NatToString(appId)),
                            [Unit(mp.privateSession) >= 0.6, Unit(mp.selfHostOrDedicated) >= 0.6,
                             Unit(mp.onlineCoop) >= 0.6, Unit(s.quality) >= 0.75])
  {
    var mp, sources := s.multiplayer, Sources(NatToString(appId));
    var apply := [Unit(mp.privateSession) >= 0.6, Unit(mp.selfHostOrDedicated) >= 0.6,
                  Unit(mp.onlineCoop) >= 0.6, Unit(s.quality) >= 0.75];
    SourcesDiffer(NatToString(appId));
    FourParts(sources, apply);
    PartsApply(sources, apply);
  }
}
