/** Merging a model's reading of a search with the rules' reading: the rules are a safety floor. */
module IntentMerging {
  import opened Outcomes
  import opened MachineInts
  import opened Reals

  const HARD_FIELDS := ["party_size", "platforms", "budget", "session_minutes", "demo_required", "self_hosting"]

  datatype SessionMinutes = SessionMinutes(min: Option<U32>, max: Option<U32>)

  datatype BudgetIntent = BudgetIntent(currency: Option<string>, maxEach: Option<int>)

  datatype StructuredIntent = StructuredIntent(
    partySize: Option<U8>,
    platforms: seq<string>,
    modesPreferred: seq<string>,
    modesExcluded: seq<string>,
    sessionMinutes: Option<SessionMinutes>,
    budget: Option<BudgetIntent>,
    selfHosting: Option<string>,
    demoRequired: Option<bool>,
    freeTextTerms: seq<string>,
    hardConstraints: seq<string>,
    confidence: real)

  datatype RuleIntent = RuleIntent(
    partySize: Option<U8>,
    platforms: seq<string>,
    sessionMinutesMax: Option<U32>,
    demoRequired: bool,
    selfHostingRequired: bool,
    coopCompetitive: Option<real>)

  // ----- Shape -----

  predicate PartySizeFits(size: Option<U8>) {
    size.Some? ==> 1 <= size.value <= 64
  }

  predicate PlatformsKnown(platforms: seq<string>) {
    forall p <- platforms :: p in ["windows", "macos", "linux", "steamdeck"]
  }

  predicate SelfHostingKnown(selfHosting: Option<string>) {
    selfHosting.Some? ==> selfHosting.value in ["required", "optional", "excluded"]
  }

  /** The checks on a model's intent, all of which must pass. */
  predicate ShapeIsValid(i: StructuredIntent) {
    && 0.0 <= i.confidence <= 1.0
    && PartySizeFits(i.partySize)
    && PlatformsKnown(i.platforms)
    && (forall f <- i.hardConstraints :: f in HARD_FIELDS)
    && SelfHostingKnown(i.selfHosting)
    && |i.freeTextTerms| <= 12
    && (forall t <- i.freeTextTerms :: |t| <= 80)
  }

  // ----- The merge -----

  function PushUnique(list: seq<string>, value: string): seq<string> {
    if value in list then list else list + [value]
  }

  function PushIf(list: seq<string>, condition: bool, value: string): seq<string> {
    if condition then PushUnique(list, value) else list
  }

  function MergedSession(rules: RuleIntent, session: Option<SessionMinutes>): Option<SessionMinutes> {
    match rules.sessionMinutesMax
    case None => session
    case Some(max) => Some(SessionMinutes(if session.Some? then session.value.min else None, Some(max)))
  }

  predicate Cooperative(rules: RuleIntent) {
    rules.coopCompetitive.Some? && rules.coopCompetitive.value < 0.45
  }

  predicate Competitive(rules: RuleIntent) {
    rules.coopCompetitive.Some? && rules.coopCompetitive.value > 0.65
  }

  /** Every field but the hard ones. */
  function MergedValues(ai: StructuredIntent, rules: RuleIntent): StructuredIntent {
    StructuredIntent(
      if rules.partySize.Some? then rules.partySize else ai.partySize,
      if rules.platforms == [] then ai.platforms else rules.platforms,
      PushIf(PushIf(ai.modesPreferred, Cooperative(rules), "private_coop"), Competitive(rules), "competitive"),
      PushIf(ai.modesExcluded, Cooperative(rules), "matchmaking_competitive"),
      MergedSession(rules, ai.sessionMinutes),
      ai.budget,
      if rules.selfHostingRequired then Some("required") else ai.selfHosting,
      if rules.demoRequired then Some(true) else ai.demoRequired,
      ai.freeTextTerms,
      [],
      Unit(ai.confidence))
  }

  /** The fields that the rules fix, in the order of the code. */
  function RuleHard(rules: RuleIntent): seq<string> {
    var a := PushIf([], rules.partySize.Some?, "party_size");
    var b := PushIf(a, rules.platforms != [], "platforms");
    var c := PushIf(b, rules.sessionMinutesMax.Some?, "session_minutes");
    var d := PushIf(c, rules.demoRequired, "demo_required");
    PushIf(d, rules.selfHostingRequired, "self_hosting")
  }

  /** Whether the model is sure enough to make this field hard. */
  predicate Trusted(confidence: real, rules: RuleIntent, field: string) {
    && field in HARD_FIELDS
    && confidence >= 0.75
    && (field == "party_size" && rules.partySize.None? ==> confidence >= 0.85)
    && (field == "platforms" && rules.platforms == [] ==> confidence >= 0.85)
    && (field == "budget" ==> confidence >= 0.85)
  }

  predicate Present(i: StructuredIntent, field: string) {
    if field == "party_size" then i.partySize.Some?
    else if field == "platforms" then i.platforms != []
    else if field == "session_minutes" then
      i.sessionMinutes.Some? && (i.sessionMinutes.value.min.Some? || i.sessionMinutes.value.max.Some?)
    else if field == "budget" then i.budget.Some? && i.budget.value.maxEach.Some?
    else if field == "demo_required" then i.demoRequired.Some?
    else if field == "self_hosting" then i.selfHosting.Some?
    else false
  }

  function Promoted(hard: seq<string>, claims: seq<string>, merged: StructuredIntent, rules: RuleIntent,
      confidence: real)
    : seq<string>
  {
    if claims == [] then hard
    else
      var before, last := Promoted(hard, claims[..|claims| - 1], merged, rules, confidence), claims[|claims| - 1];
      PushIf(before, Trusted(confidence, rules, last) && Present(merged, last), last)
  }

  function Merged(ai: StructuredIntent, rules: RuleIntent): StructuredIntent {
    var values := MergedValues(ai, rules);
    values.(hardConstraints := Promoted(RuleHard(rules), ai.hardConstraints, values, rules, ai.confidence))
  }

  method MergeIntentWithRules(ai: StructuredIntent, rules: RuleIntent) returns (merged: StructuredIntent)
    ensures merged == Merged(ai, rules)
  {
    merged := MergeValues(ai, rules);
    var hard := RuleFields(rules);
    hard := PromoteClaims(hard, ai, merged, rules);
    merged := merged.(hardConstraints := hard);

    if rules.partySize.Some? {
      merged := merged.(partySize := rules.partySize);
    }
    if rules.platforms != [] {
      merged := merged.(platforms := rules.platforms);
    }
    if rules.selfHostingRequired {
      merged := merged.(selfHosting := Some("required"));
    }
    if rules.demoRequired {
      merged := merged.(demoRequired := Some(true));
    }
  }

  /** The values that count, with the soft modes that the rules suggest. */
  method MergeValues(ai: StructuredIntent, rules: RuleIntent) returns (merged: StructuredIntent)
    ensures merged == MergedValues(ai, rules)
  {
    var session := ai.sessionMinutes;
    if rules.sessionMinutesMax.Some? {
      if session.Some? {
        session := Some(session.value.(max := rules.sessionMinutesMax));
      } else {
        session := Some(SessionMinutes(None, rules.sessionMinutesMax));
      }
    }
    merged := StructuredIntent(
      if rules.partySize.Some? then rules.partySize else ai.partySize,
      if rules.platforms == [] then ai.platforms else rules.platforms,
      ai.modesPreferred,
      ai.modesExcluded,
      session,
      ai.budget,
      if rules.selfHostingRequired then Some("required") else ai.selfHosting,
      if rules.demoRequired then Some(true) else ai.demoRequired,
      ai.freeTextTerms,
      [],
      Unit(ai.confidence));
    if rules.coopCompetitive.Some? {
      if rules.coopCompetitive.value < 0.45 {
        merged := merged.(modesPreferred := PushUnique(merged.modesPreferred, "private_coop"),
                          modesExcluded := PushUnique(merged.modesExcluded, "matchmaking_competitive"));
      } else if rules.coopCompetitive.value > 0.65 {
        merged := merged.(modesPreferred := PushUnique(merged.modesPreferred, "competitive"));
      }
    }
  }

  /** The model's hard fields that it is sure enough of and that have a value. */
  method PromoteClaims(floor: seq<string>, ai: StructuredIntent, merged: StructuredIntent, rules: RuleIntent)
    returns (hard: seq<string>)
    ensures hard == Promoted(floor, ai.hardConstraints, merged, rules, ai.confidence)
  {
    var claims := ai.hardConstraints;
    hard := floor;
    for i := 0 to |claims|
      invariant hard == Promoted(floor, claims[..i], merged, rules, ai.confidence)
    {
      assert claims[..i + 1][..i] == claims[..i];
      var field := claims[i];
      if field !in HARD_FIELDS || ai.confidence < 0.75 {
        continue;
      }
      if ai.confidence < 0.85 {
        if || (field == "party_size" && rules.partySize.None?)
           || (field == "platforms" && rules.platforms == [])
           || field == "budget"
        {
          continue;
        }
      }
      if Present(merged, field) {
        hard := PushUnique(hard, field);
      }
    }
    assert claims[..|claims|] == claims;
  }

  method RuleFields(rules: RuleIntent) returns (hard: seq<string>)
    ensures hard == RuleHard(rules)
  {
    hard := [];
    if rules.partySize.Some? {
      hard := PushUnique(hard, "party_size");
    }
    if rules.platforms != [] {
      hard := PushUnique(hard, "platforms");
    }
    if rules.sessionMinutesMax.Some? {
      hard := PushUnique(hard, "session_minutes");
    }
    if rules.demoRequired {
      hard := PushUnique(hard, "demo_required");
    }
    if rules.selfHostingRequired {
      hard := PushUnique(hard, "self_hosting");
    }
  }

  // ----- The safety floor -----

  ghost predicate Distinct(s: seq<string>) {
    forall i, j :: 0 <= i < j < |s| ==> s[i] != s[j]
  }

  /** What the rules say about a field. */
  predicate RuleFixes(rules: RuleIntent, field: string) {
    || (field == "party_size" && rules.partySize.Some?)
    || (field == "platforms" && rules.platforms != [])
    || (field == "session_minutes" && rules.sessionMinutesMax.Some?)
    || (field == "demo_required" && rules.demoRequired)
    || (field == "self_hosting" && rules.selfHostingRequired)
  }

  lemma PushIfMembers(list: seq<string>, condition: bool, value: string, x: string)
    ensures x in PushIf(list, condition, value) <==> x in list || (condition && x == value)
    ensures Distinct(list) ==> Distinct(PushIf(list, condition, value))
  {
  }

  lemma RuleHardIsFixed(rules: RuleIntent, field: string)
    ensures field in RuleHard(rules) <==> RuleFixes(rules, field)
    ensures Distinct(RuleHard(rules))
  {
    var a := PushIf([], rules.partySize.Some?, "party_size");
    var b := PushIf(a, rules.platforms != [], "platforms");
    var c := PushIf(b, rules.sessionMinutesMax.Some?, "session_minutes");
    var d := PushIf(c, rules.demoRequired, "demo_required");
    PushIfMembers([], rules.partySize.Some?, "party_size", field);
    PushIfMembers(a, rules.platforms != [], "platforms", field);
    PushIfMembers(b, rules.sessionMinutesMax.Some?, "session_minutes", field);
    PushIfMembers(c, rules.demoRequired, "demo_required", field);
    PushIfMembers(d, rules.selfHostingRequired, "self_hosting", field);
  }

  lemma {:induction false} PromotedMembers(hard: seq<string>, claims: seq<string>, merged: StructuredIntent,
                                           rules: RuleIntent, confidence: real, x: string)
    ensures var r := Promoted(hard, claims, merged, rules, confidence);
            && (x in r <==> x in hard || (x in claims && Trusted(confidence, rules, x) && Present(merged, x)))
            && (Distinct(hard) ==> Distinct(r))
            && hard <= r
  {
    if claims != [] {
      var before, last := claims[..|claims| - 1], claims[|claims| - 1];
      assert claims == before + [last];
      PromotedMembers(hard, before, merged, rules, confidence, x);
      PushIfMembers(Promoted(hard, before, merged, rules, confidence),
                    Trusted(confidence, rules, last) && Present(merged, last), last, x);
    }
  }

  /** Sure enough: to 0.75, and to 0.85 for a budget, or for a party or platforms that the rules do not know of. */
  ghost predicate SureOf(ai: StructuredIntent, rules: RuleIntent, field: string) {
    if || field == "budget"
       || (field == "party_size" && rules.partySize.None?)
       || (field == "platforms" && rules.platforms == [])
    then ai.confidence >= 0.85
    else ai.confidence >= 0.75
  }

  ghost predicate HasValue(i: StructuredIntent, field: string) {
    || (field == "party_size" && i.partySize.Some?)
    || (field == "platforms" && i.platforms != [])
    || (field == "budget" && i.budget.Some? && i.budget.value.maxEach.Some?)
    || (field == "session_minutes" && i.sessionMinutes.Some?
        && (i.sessionMinutes.value.min.Some? || i.sessionMinutes.value.max.Some?))
    || (field == "demo_required" && i.demoRequired.Some?)
    || (field == "self_hosting" && i.selfHosting.Some?)
  }

  lemma TrustedIff(ai: StructuredIntent, rules: RuleIntent, field: string)
    ensures Trusted(ai.confidence, rules, field) && Present(Merged(ai, rules), field) <==>
              SureOf(ai, rules, field) && HasValue(Merged(ai, rules), field)
  {
    assert HARD_FIELDS[0] == "party_size" && HARD_FIELDS[1] == "platforms" && HARD_FIELDS[2] == "budget";
    assert HARD_FIELDS[3] == "session_minutes" && HARD_FIELDS[4] == "demo_required" && HARD_FIELDS[5] == "self_hosting";
    assert Present(Merged(ai, rules), field) ==> field in HARD_FIELDS;
  }

  /** A field is hard exactly when the rules fix it, or the model claims it, is sure enough, and has a value. */
  lemma HardIff(ai: StructuredIntent, rules: RuleIntent, field: string)
    ensures field in Merged(ai, rules).hardConstraints <==>
              || RuleFixes(rules, field)
              || (&& field in ai.hardConstraints
                  && SureOf(ai, rules, field)
                  && HasValue(Merged(ai, rules), field))
    ensures Distinct(Merged(ai, rules).hardConstraints)
  {
    TrustedIff(ai, rules, field);
    RuleHardIsFixed(rules, field);
    PromotedMembers(RuleHard(rules), ai.hardConstraints, MergedValues(ai, rules), rules, ai.confidence, field);
  }

  ghost predicate KeepsRuleValues(i: StructuredIntent, rules: RuleIntent) {
    && (rules.partySize.Some? ==> i.partySize == rules.partySize)
    && (rules.platforms != [] ==> i.platforms == rules.platforms)
    && (rules.sessionMinutesMax.Some? ==>
          i.sessionMinutes.Some? && i.sessionMinutes.value.max == rules.sessionMinutesMax)
    && (rules.demoRequired ==> i.demoRequired == Some(true))
    && (rules.selfHostingRequired ==> i.selfHosting == Some("required"))
  }

  /** Nothing the model says weakens what the rules found, and no hard field is unknown, repeated or blank. */
  lemma SafetyFloor(ai: StructuredIntent, rules: RuleIntent)
    ensures var merged := Merged(ai, rules);
            && KeepsRuleValues(merged, rules)
            && (forall f :: RuleFixes(rules, f) ==> f in merged.hardConstraints)
            && (forall f <- merged.hardConstraints :: f in HARD_FIELDS && Present(merged, f))
            && Distinct(merged.hardConstraints)
  {
    var merged := Merged(ai, rules);
    HardIff(ai, rules, "party_size");
    forall f: string ensures RuleFixes(rules, f) ==> f in merged.hardConstraints {
      HardIff(ai, rules, f);
    }
    forall f <- merged.hardConstraints ensures f in HARD_FIELDS && Present(merged, f) {
      HardIff(ai, rules, f);
      assert RuleFixes(rules, f) ==> f in HARD_FIELDS by {
        assert HARD_FIELDS[0] == "party_size" && HARD_FIELDS[1] == "platforms" && HARD_FIELDS[3] == "session_minutes";
        assert HARD_FIELDS[4] == "demo_required" && HARD_FIELDS[5] == "self_hosting";
      }
    }
  }

  /** Being surer never makes a hard field soft, and changes no value. */
  lemma ConfidenceOnlyHardens(ai: StructuredIntent, rules: RuleIntent, confidence: real)
    requires ai.confidence <= confidence
    ensures var less, more := Merged(ai, rules), Merged(ai.(confidence := confidence), rules);
            && (forall f <- less.hardConstraints :: f in more.hardConstraints)
            && less.(hardConstraints := [], confidence := 0.0) == more.(hardConstraints := [], confidence := 0.0)
  {
    var surer := ai.(confidence := confidence);
    forall f <- Merged(ai, rules).hardConstraints ensures f in Merged(surer, rules).hardConstraints {
      HardIff(ai, rules, f);
      HardIff(surer, rules, f);
    }
  }

  // ----- Merging twice -----

  lemma PushIfTwice(list: seq<string>, c: bool, v: string)
    ensures PushIf(PushIf(list, c, v), c, v) == PushIf(list, c, v)
  {
  }

  lemma ValuesMergeOnce(ai: StructuredIntent, rules: RuleIntent)
    ensures MergedValues(Merged(ai, rules), rules) == MergedValues(ai, rules)
  {
    var merged := Merged(ai, rules);
    PushIfTwice(ai.modesExcluded, Cooperative(rules), "matchmaking_competitive");
    PushIfTwice(ai.modesPreferred, Cooperative(rules), "private_coop");
    PushIfTwice(ai.modesPreferred, Competitive(rules), "competitive");
  }

  /** Promoting again, over claims that were all let through, adds what it added before. */
  lemma {:induction false} PromotingAgain(hard: seq<string>, claims: seq<string>, merged: StructuredIntent,
                                          rules: RuleIntent, confidence: real)
    requires hard <= claims && Distinct(claims)
    requires forall c <- claims :: c in hard || (Trusted(confidence, rules, c) && Present(merged, c))
    ensures Promoted(hard, claims, merged, rules, confidence) == claims
    decreases |claims|
  {
    if |claims| > |hard| {
      var before, last := claims[..|claims| - 1], claims[|claims| - 1];
      PromotingAgain(hard, before, merged, rules, confidence);
      assert last !in before;
      assert last !in hard by {
        assert forall c <- hard :: c in before;
      }
    } else {
      PromotingKept(hard, claims, merged, rules, confidence);
    }
  }

  lemma {:induction false} PromotingKept(hard: seq<string>, claims: seq<string>, merged: StructuredIntent,
                                         rules: RuleIntent, confidence: real)
    requires forall c <- claims :: c in hard
    ensures Promoted(hard, claims, merged, rules, confidence) == hard
  {
    if claims != [] {
      PromotingKept(hard, claims[..|claims| - 1], merged, rules, confidence);
    }
  }

  /** Merging the result again with the same rules changes nothing. */
  lemma MergingIsIdempotent(ai: StructuredIntent, rules: RuleIntent)
    ensures Merged(Merged(ai, rules), rules) == Merged(ai, rules)
  {
    var merged, values := Merged(ai, rules), MergedValues(ai, rules);
    ValuesMergeOnce(ai, rules);
    HardIff(ai, rules, "party_size");
    PromotedMembers(RuleHard(rules), ai.hardConstraints, values, rules, ai.confidence, "party_size");
    forall c <- merged.hardConstraints
      ensures c in RuleHard(rules) || (Trusted(merged.confidence, rules, c) && Present(values, c))
    {
      HardIff(ai, rules, c);
      RuleHardIsFixed(rules, c);
    }
    PromotingAgain(RuleHard(rules), merged.hardConstraints, values, rules, merged.confidence);
  }

  lemma SelfHostingStaysKnown(ai: StructuredIntent, rules: RuleIntent)
    requires SelfHostingKnown(ai.selfHosting)
    ensures SelfHostingKnown(MergedValues(ai, rules).selfHosting)
  {
    assert ["required", "optional", "excluded"][0] == "required";
  }

  lemma HardFieldsAreKnown(ai: StructuredIntent, rules: RuleIntent)
    ensures forall f <- Merged(ai, rules).hardConstraints :: f in HARD_FIELDS
  {
    SafetyFloor(ai, rules);
  }

  /** What the merge does to the fields that are checked, apart from the hard ones. */
  lemma MergedShape(ai: StructuredIntent, rules: RuleIntent)
    requires ShapeIsValid(ai)
    ensures var i := MergedValues(ai, rules);
            && 0.0 <= i.confidence <= 1.0
            && (PartySizeFits(i.partySize) <==> PartySizeFits(rules.partySize))
            && (PlatformsKnown(i.platforms) <==> PlatformsKnown(rules.platforms))
            && i.freeTextTerms == ai.freeTextTerms
  {
  }

  /** A valid intent stays valid exactly when the rules' own party size and platforms are in order. */
  lemma ShapeSurvivesIff(ai: StructuredIntent, rules: RuleIntent)
    requires ShapeIsValid(ai)
    ensures ShapeIsValid(Merged(ai, rules)) <==> PartySizeFits(rules.partySize) && PlatformsKnown(rules.platforms)
  {
    HardFieldsAreKnown(ai, rules);
    SelfHostingStaysKnown(ai, rules);
    MergedShape(ai, rules);
  }

  // ----- Where the rules are silent -----

  /** The model's modes come first; only what the rules suggest is added. */
  ghost predicate Extends(list: seq<string>, more: seq<string>, suggested: set<string>) {
    list <= more && forall m :: m in more <==> m in list || m in suggested
  }

  /**
    Where the rules say nothing, the model's values stand; the rules' session limit leaves its
    minimum alone; and a taste for cooperation or competition suggests modes without removing any.
   */
  lemma ModelSpeaksWhereRulesAreSilent(ai: StructuredIntent, rules: RuleIntent)
    ensures var m := Merged(ai, rules);
            && (rules.partySize.None? ==> m.partySize == ai.partySize)
            && (rules.platforms == [] ==> m.platforms == ai.platforms)
            && (rules.sessionMinutesMax.None? ==> m.sessionMinutes == ai.sessionMinutes)
            && (rules.sessionMinutesMax.Some? ==>
                  && m.sessionMinutes.Some? && m.sessionMinutes.value.max == rules.sessionMinutesMax
                  && m.sessionMinutes.value.min ==
                       if ai.sessionMinutes.Some? then ai.sessionMinutes.value.min else None)
            && m.budget == ai.budget
            && (!rules.selfHostingRequired ==> m.selfHosting == ai.selfHosting)
            && (!rules.demoRequired ==> m.demoRequired == ai.demoRequired)
            && m.freeTextTerms == ai.freeTextTerms
            && (0.0 <= ai.confidence <= 1.0 ==> m.confidence == ai.confidence)
            && (ai.confidence < 0.0 ==> m.confidence == 0.0) && (ai.confidence > 1.0 ==> m.confidence == 1.0)
    ensures var m, taste := Merged(ai, rules), rules.coopCompetitive.GetOr(0.5);
            && (taste < 0.45 ==>
                  && Extends(ai.modesPreferred, m.modesPreferred, {"private_coop"})
                  && Extends(ai.modesExcluded, m.modesExcluded, {"matchmaking_competitive"}))
            && (taste > 0.65 ==>
                  Extends(ai.modesPreferred, m.modesPreferred, {"competitive"}) && m.modesExcluded == ai.modesExcluded)
            && (0.45 <= taste <= 0.65 ==>
                  m.modesPreferred == ai.modesPreferred && m.modesExcluded == ai.modesExcluded)
  {
  }
}
