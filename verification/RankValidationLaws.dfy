/** What validation, sanitizing and degradation promise about each other. */
module RankValidationLaws {
  import opened Outcomes
  import opened MachineInts
  import opened JsonValues
  import opened Text
  import opened RankValidation
  import Sorting

  // ----- Well-formed results -----

  /** A list that validation would leave exactly as it is. */
  ghost predicate CleanList(list: seq<string>, maxItems: nat, maxChars: nat) {
    |list| <= maxItems && forall t <- list :: Trim(t) == t && t != "" && Acceptable(t, maxChars)
  }

  ghost predicate WellFormedItem(byId: Evidence, x: AiRankItem) {
    && x.appId in byId
    && 0.0 <= x.fitScore <= 1.0 && 0.0 <= x.confidence <= 1.0
    && CleanList(x.reasons, MAX_REASONS, MAX_REASON_CHARS)
    && CleanList(x.cautions, MAX_CAUTIONS, MAX_REASON_CHARS)
    && CleanList(x.reasonEvidenceIds, MAX_EVIDENCE, MAX_EVIDENCE_ID_CHARS)
    && Within(x.reasonEvidenceIds, byId[x.appId])
    && (x.reasons != [] || x.cautions != [] ==> x.reasonEvidenceIds != [])
  }

  ghost predicate DistinctIds(items: seq<AiRankItem>) {
    forall i, j :: 0 <= i < j < |items| ==> items[i].appId != items[j].appId
  }

  /** Candidates only, each once; scores in range; no claim without its own evidence. */
  ghost predicate WellFormed(r: AiRankResult, candidates: seq<CandidateEvidence>, maxItems: nat) {
    && |r.recommendations| <= maxItems
    && (forall x <- r.recommendations :: WellFormedItem(ById(candidates), x))
    && DistinctIds(r.recommendations)
    && Trim(r.summary) == r.summary && Acceptable(r.summary, MAX_SUMMARY_CHARS)
    && CleanList(r.summaryEvidenceIds, MAX_SUMMARY_EVIDENCE, MAX_EVIDENCE_ID_CHARS)
    && Within(r.summaryEvidenceIds, AllEvidence(candidates))
    && (r.summary != "" ==> r.summaryEvidenceIds != [])
  }

  // ----- Lists -----

  lemma {:induction false} CleanTextsAreClean(entries: seq<Json>, maxChars: nat)
    requires CleanTexts(entries, maxChars).Some?
    ensures CleanList(CleanTexts(entries, maxChars).value, |entries|, maxChars)
  {
    if entries != [] {
      var last := entries[|entries| - 1];
      CleanTextsAreClean(entries[..|entries| - 1], maxChars);
      TrimTrims(last.s);
      TrimFixes(Trim(last.s));
    }
  }

  lemma CleanTextAppended(entries: seq<Json>, texts: seq<string>, t: string, maxChars: nat)
    requires CleanTexts(entries, maxChars) == Some(texts)
    requires Trim(t) == t && t != "" && Acceptable(t, maxChars)
    ensures CleanTexts(entries + [Str(t)], maxChars) == Some(texts + [t])
  {
    assert (entries + [Str(t)])[..|entries|] == entries;
  }

  lemma {:induction false} CleanTextsStay(list: seq<string>, maxChars: nat)
    requires CleanList(list, |list|, maxChars)
    ensures CleanTexts(StringArray(list).items, maxChars) == Some(list)
  {
    if list != [] {
      var before, last := list[..|list| - 1], list[|list| - 1];
      assert list == before + [last];
      CleanTextsStay(before, maxChars);
      CleanTextAppended(StringArray(before).items, before, last, maxChars);
      assert StringArray(list).items == StringArray(before).items + [Str(last)];
    }
  }

  lemma TextArrayIsClean(v: Json, maxItems: nat, maxChars: nat)
    requires TextArray(v, maxItems, maxChars).Some?
    ensures CleanList(TextArray(v, maxItems, maxChars).value, maxItems, maxChars)
  {
    CleanTextsAreClean(v.items, maxChars);
  }

  lemma TextArrayStays(list: seq<string>, maxItems: nat, maxChars: nat)
    requires CleanList(list, maxItems, maxChars)
    ensures TextArray(StringArray(list), maxItems, maxChars) == Some(list)
  {
    CleanTextsStay(list, maxChars);
  }

  lemma ListIsClean(f: Fields, key: string, maxItems: nat, maxChars: nat)
    requires StringList(f, key, maxItems, maxChars).Some?
    ensures CleanList(StringList(f, key, maxItems, maxChars).value, maxItems, maxChars)
  {
    if key in f {
      TextArrayIsClean(f[key], maxItems, maxChars);
    }
  }

  // ----- Validated items -----

  lemma ValidItemIsWellFormed(byId: Evidence, item: Json)
    requires ValidItem(byId, item).Some?
    ensures WellFormedItem(byId, ValidItem(byId, item).value)
  {
    var f := item.fields;
    ListIsClean(f, "reasons", MAX_REASONS, MAX_REASON_CHARS);
    ListIsClean(f, "cautions", MAX_CAUTIONS, MAX_REASON_CHARS);
    ListIsClean(f, "reason_evidence_ids", MAX_EVIDENCE, MAX_EVIDENCE_ID_CHARS);
  }

  lemma EncodedItemScores(byId: Evidence, x: AiRankItem)
    ensures CandidateId(byId, EncodeItem(x)) == if x.appId in byId then Some(x.appId) else None
    ensures Get(EncodeItem(x).fields, "fit_score") == Float(x.fitScore)
    ensures Get(EncodeItem(x).fields, "confidence") == Float(x.confidence)
  {
  }

  lemma EncodedItemLists(x: AiRankItem)
    ensures Reasons(EncodeItem(x).fields) == TextArray(StringArray(x.reasons), MAX_REASONS, MAX_REASON_CHARS)
    ensures Cautions(EncodeItem(x).fields) == TextArray(StringArray(x.cautions), MAX_CAUTIONS, MAX_REASON_CHARS)
    ensures ReasonEvidence(EncodeItem(x).fields)
         == TextArray(StringArray(x.reasonEvidenceIds), MAX_EVIDENCE, MAX_EVIDENCE_ID_CHARS)
  {
  }

  lemma FieldsReadBack(byId: Evidence, item: Json, x: AiRankItem)
    requires WellFormedItem(byId, x) && CandidateId(byId, item) == Some(x.appId)
    requires Get(item.fields, "fit_score") == Float(x.fitScore) && Get(item.fields, "confidence") == Float(x.confidence)
    requires Reasons(item.fields) == Some(x.reasons) && Cautions(item.fields) == Some(x.cautions)
    requires ReasonEvidence(item.fields) == Some(x.reasonEvidenceIds)
    ensures ValidItem(byId, item) == Some(x)
  {
  }

  lemma WellFormedItemStays(byId: Evidence, x: AiRankItem)
    requires WellFormedItem(byId, x)
    ensures ValidItem(byId, EncodeItem(x)) == Some(x)
  {
    EncodedItemScores(byId, x);
    EncodedItemLists(x);
    TextArrayStays(x.reasons, MAX_REASONS, MAX_REASON_CHARS);
    TextArrayStays(x.cautions, MAX_CAUTIONS, MAX_REASON_CHARS);
    TextArrayStays(x.reasonEvidenceIds, MAX_EVIDENCE, MAX_EVIDENCE_ID_CHARS);
    FieldsReadBack(byId, EncodeItem(x), x);
  }

  /** Item by item, the result is what each entry passes the check as. */
  ghost predicate Elementwise(check: Check, recs: seq<Json>, items: seq<AiRankItem>) {
    |items| == |recs| && forall i :: 0 <= i < |recs| ==> check(recs[i]) == Some(items[i])
  }

  lemma DistinctSnoc(items: seq<AiRankItem>, x: AiRankItem)
    requires DistinctIds(items) && x.appId !in Ids(items)
    ensures DistinctIds(items + [x])
  {
    assert forall i :: 0 <= i < |items| ==> items[i] in items && items[i].appId in Ids(items);
  }

  lemma {:induction false} PassedAreItems(check: Check, recs: seq<Json>)
    requires AllPass(check, recs).Some?
    ensures Elementwise(check, recs, AllPass(check, recs).value) && DistinctIds(AllPass(check, recs).value)
  {
    if recs != [] {
      var last := |recs| - 1;
      PassedAreItems(check, recs[..last]);
      DistinctSnoc(AllPass(check, recs[..last]).value, check(recs[last]).value);
    }
  }

  lemma ItemsAreWellFormed(byId: Evidence, recs: seq<Json>, items: seq<AiRankItem>)
    requires Elementwise(ItemCheck(byId), recs, items)
    ensures forall x <- items :: WellFormedItem(byId, x)
  {
    forall x <- items ensures WellFormedItem(byId, x) {
      var i :| 0 <= i < |items| && items[i] == x;
      assert ItemCheck(byId)(recs[i]) == Some(x);
      ValidItemIsWellFormed(byId, recs[i]);
    }
  }

  lemma {:induction false} ItemsPass(check: Check, recs: seq<Json>, items: seq<AiRankItem>)
    requires Elementwise(check, recs, items) && DistinctIds(items)
    ensures AllPass(check, recs) == Some(items)
  {
    if recs != [] {
      var last := |recs| - 1;
      ItemsPass(check, recs[..last], items[..last]);
      assert items[..last] + [items[last]] == items;
    }
  }

  // ----- The round trip -----

  lemma EncodedFields(r: AiRankResult)
    ensures Field(Encode(r), "recommendations") == Arr(EncodeItems(r.recommendations))
    ensures Summary(Encode(r).fields) == Trim(r.summary)
    ensures SummaryEvidence(Encode(r).fields) ==
        TextArray(StringArray(r.summaryEvidenceIds), MAX_SUMMARY_EVIDENCE, MAX_EVIDENCE_ID_CHARS)
  {
  }

  /** Whatever validation lets through is well-formed. */
  lemma ValidatedIsWellFormed(value: Json, candidates: seq<CandidateEvidence>, maxItems: nat)
    requires Validate(value, candidates, maxItems).Some?
    ensures WellFormed(Validate(value, candidates, maxItems).value, candidates, maxItems)
  {
    var recs := Field(value, "recommendations").items;
    PassedAreItems(ItemCheck(ById(candidates)), recs);
    ItemsAreWellFormed(ById(candidates), recs, ValidItems(ById(candidates), recs).value);
    TextArrayIsClean(value.fields["summary_evidence_ids"], MAX_SUMMARY_EVIDENCE, MAX_EVIDENCE_ID_CHARS);
    var summary := Get(value.fields, "summary");
    if summary.Str? {
      TrimTrims(summary.s);
      TrimFixes(Trim(summary.s));
    } else {
      TrimFixes("");
    }
  }

  /** A well-formed result survives being stored and validated again, unchanged. */
  lemma WellFormedSurvivesStorage(r: AiRankResult, candidates: seq<CandidateEvidence>, maxItems: nat)
    requires WellFormed(r, candidates, maxItems)
    ensures Validate(Encode(r), candidates, maxItems) == Some(r)
  {
    EncodedFields(r);
    var byId, recs := ById(candidates), EncodeItems(r.recommendations);
    forall i | 0 <= i < |recs| ensures ItemCheck(byId)(recs[i]) == Some(r.recommendations[i]) {
      assert r.recommendations[i] in r.recommendations;
      WellFormedItemStays(byId, r.recommendations[i]);
    }
    ItemsPass(ItemCheck(byId), recs, r.recommendations);
    TextArrayStays(r.summaryEvidenceIds, MAX_SUMMARY_EVIDENCE, MAX_EVIDENCE_ID_CHARS);
  }

  // ----- Sanitizing extends validation -----

  lemma {:induction false} RetainedAll(list: seq<string>, allowed: seq<string>)
    ensures |Retained(list, allowed)| <= |list| && Within(Retained(list, allowed), allowed)
    ensures |Retained(list, allowed)| == |list| <==> Within(list, allowed)
    ensures Within(list, allowed) ==> Retained(list, allowed) == list
  {
    if list != [] {
      var last := |list| - 1;
      RetainedAll(list[..last], allowed);
      assert list == list[..last] + [list[last]];
    }
  }

  lemma ValidItemIsClean(byId: Evidence, item: Json)
    requires ValidItem(byId, item).Some?
    ensures CleanItem(byId, item) == (ValidItem(byId, item), false)
  {
    RetainedAll(ReasonEvidence(item.fields).value, byId[CandidateId(byId, item).value]);
  }

  lemma {:induction false} PassedAreSalvaged(check: Check, salvage: Salvage, recs: seq<Json>)
    requires AllPass(check, recs).Some?
    requires forall rec :: check(rec).Some? ==> salvage(rec) == (check(rec), false)
    ensures AllSalvaged(salvage, recs) == (AllPass(check, recs).value, false)
  {
    if recs != [] {
      PassedAreSalvaged(check, salvage, recs[..|recs| - 1]);
    }
  }

  /** Sanitizing what is already valid changes nothing and raises no flag. */
  lemma SanitizeExtendsValidate(value: Json, candidates: seq<CandidateEvidence>, maxItems: nat)
    requires Validate(value, candidates, maxItems).Some?
    ensures Sanitize(value, candidates, maxItems) == Some((Validate(value, candidates, maxItems).value, false))
  {
    var r := Validate(value, candidates, maxItems).value;
    var recs := Field(value, "recommendations").items;
    ValidatedIsWellFormed(value, candidates, maxItems);
    WellFormedSurvivesStorage(r, candidates, maxItems);
    var check, salvage := ItemCheck(ById(candidates)), ItemSalvage(ById(candidates));
    forall rec | check(rec).Some? ensures salvage(rec) == (check(rec), false) {
      ValidItemIsClean(ById(candidates), rec);
    }
    PassedAreSalvaged(check, salvage, recs);
    PassedAreItems(ItemCheck(ById(candidates)), recs);
    RetainedAll(r.summaryEvidenceIds, AllEvidence(candidates));
    assert Cleaned(value, candidates) == (r, false);
  }

  // ----- Sanitizing is conservative -----

  /** The item carries the raw entry's id and scores. */
  ghost predicate SameVerdict(x: AiRankItem, raw: Json) {
    && Field(raw, "app_id") == Int(x.appId)
    && AsF64(Field(raw, "fit_score")) == Some(x.fitScore)
    && AsF64(Field(raw, "confidence")) == Some(x.confidence)
  }

  /** The items are some of the raw entries, in their order. */
  ghost predicate SubsequenceOf(items: seq<AiRankItem>, recs: seq<Json>) {
    if recs == [] then items == []
    else
      var last := |recs| - 1;
      || SubsequenceOf(items, recs[..last])
      || (items != [] && SameVerdict(items[|items| - 1], recs[last])
           && SubsequenceOf(items[..|items| - 1], recs[..last]))
  }

  lemma SalvagedItemIsSame(byId: Evidence, rec: Json)
    requires CleanItem(byId, rec).0.Some?
    ensures SameVerdict(CleanItem(byId, rec).0.value, rec)
  {
  }

  lemma {:induction false} SalvagedAreSubsequence(salvage: Salvage, recs: seq<Json>)
    requires forall rec :: salvage(rec).0.Some? ==> SameVerdict(salvage(rec).0.value, rec)
    ensures SubsequenceOf(AllSalvaged(salvage, recs).0, recs)
  {
    if recs != [] {
      var before := AllSalvaged(salvage, recs[..|recs| - 1]).0;
      var item := salvage(recs[|recs| - 1]).0;
      SalvagedAreSubsequence(salvage, recs[..|recs| - 1]);
      if item.Some? {
        assert (before + [item.value])[..|before|] == before;
      }
    }
  }

  ghost predicate SameScores(x: AiRankItem, y: AiRankItem) {
    x.appId == y.appId && x.fitScore == y.fitScore && x.confidence == y.confidence
  }

  lemma {:induction false} SubsequenceSees(xs: seq<AiRankItem>, ys: seq<AiRankItem>, recs: seq<Json>)
    requires SubsequenceOf(xs, recs) && |xs| == |ys|
    requires forall i :: 0 <= i < |xs| ==> SameScores(xs[i], ys[i])
    ensures SubsequenceOf(ys, recs)
  {
    if recs != [] {
      var last := |recs| - 1;
      if SubsequenceOf(xs, recs[..last]) {
        SubsequenceSees(xs, ys, recs[..last]);
      } else {
        SubsequenceSees(xs[..|xs| - 1], ys[..|ys| - 1], recs[..last]);
      }
    }
  }

  lemma StoredItemsKeepScores(byId: Evidence, xs: seq<AiRankItem>, ys: seq<AiRankItem>)
    requires Elementwise(ItemCheck(byId), EncodeItems(xs), ys)
    ensures |xs| == |ys| && forall i :: 0 <= i < |xs| ==> SameScores(xs[i], ys[i])
  {
    forall i | 0 <= i < |xs| ensures SameScores(xs[i], ys[i]) {
      EncodedItemScores(byId, xs[i]);
      assert ItemCheck(byId)(EncodeItems(xs)[i]) == Some(ys[i]);
    }
  }

  /**
    Whenever the sanitizer succeeds, its items are some of the model's entries in their
    order, with unchanged ids and scores, and the result is as well-formed as a strictly
    validated one: distinct candidates, own evidence only, no claim without evidence.
   */
  lemma SanitizeIsConservative(value: Json, candidates: seq<CandidateEvidence>, maxItems: nat)
    requires Sanitize(value, candidates, maxItems).Some?
    ensures var r := Sanitize(value, candidates, maxItems).value.0;
            && SubsequenceOf(r.recommendations, Field(value, "recommendations").items)
            && WellFormed(r, candidates, maxItems)
            && (r.recommendations == [] ==> Field(value, "recommendations").items == [])
  {
    var byId, recs := ById(candidates), Field(value, "recommendations").items;
    var draft, r := Cleaned(value, candidates).0, Sanitize(value, candidates, maxItems).value.0;
    ValidatedIsWellFormed(Encode(draft), candidates, maxItems);
    DraftItems(value, candidates, maxItems);
    var salvage := ItemSalvage(byId);
    forall rec | salvage(rec).0.Some? ensures SameVerdict(salvage(rec).0.value, rec) {
      SalvagedItemIsSame(byId, rec);
    }
    SalvagedAreSubsequence(salvage, recs);
    StoredItemsKeepScores(byId, draft.recommendations, r.recommendations);
    SubsequenceSees(draft.recommendations, r.recommendations, recs);
  }

  lemma DraftItems(value: Json, candidates: seq<CandidateEvidence>, maxItems: nat)
    requires Sanitize(value, candidates, maxItems).Some?
    ensures var draft, r := Cleaned(value, candidates).0, Sanitize(value, candidates, maxItems).value.0;
            && Validate(Encode(draft), candidates, maxItems) == Some(r)
            && Elementwise(ItemCheck(ById(candidates)), EncodeItems(draft.recommendations), r.recommendations)
            && DistinctIds(r.recommendations) && |draft.recommendations| <= maxItems
  {
    var draft := Cleaned(value, candidates).0;
    EncodedFields(draft);
    PassedAreItems(ItemCheck(ById(candidates)), EncodeItems(draft.recommendations));
  }

  // ----- The flag -----

  /** Every list of every entry can be read. */
  ghost predicate ListsParse(value: Json) {
    && Field(value, "recommendations").Arr?
    && SummaryEvidence(value.fields).Some?
    && forall item <- Field(value, "recommendations").items ::
         item.Obj? ==> Reasons(item.fields).Some? && Cautions(item.fields).Some? && ReasonEvidence(item.fields).Some?
  }

  ghost predicate Unflagged(salvage: Salvage, recs: seq<Json>, items: seq<AiRankItem>) {
    |items| == |recs| && forall i :: 0 <= i < |recs| ==> salvage(recs[i]) == (Some(items[i]), false)
  }

  lemma {:induction false} UnflaggedItems(salvage: Salvage, recs: seq<Json>)
    requires forall rec :: salvage(rec).0.None? ==> salvage(rec).1
    requires !AllSalvaged(salvage, recs).1
    ensures Unflagged(salvage, recs, AllSalvaged(salvage, recs).0)
  {
    if recs != [] {
      UnflaggedItems(salvage, recs[..|recs| - 1]);
    }
  }

  lemma DroppedIsFlagged(byId: Evidence, item: Json)
    ensures CleanItem(byId, item).0.None? ==> CleanItem(byId, item).1
  {
  }

  lemma UnflaggedItemIsValid(byId: Evidence, item: Json)
    requires CleanItem(byId, item).0.Some? && !CleanItem(byId, item).1
    requires Reasons(item.fields).Some? && Cautions(item.fields).Some? && ReasonEvidence(item.fields).Some?
    ensures ValidItem(byId, item) == CleanItem(byId, item).0
  {
    RetainedAll(ReasonEvidence(item.fields).value, byId[CandidateId(byId, item).value]);
  }

  lemma UnflaggedItemsAreValid(value: Json, candidates: seq<CandidateEvidence>, maxItems: nat)
    requires var s := Sanitize(value, candidates, maxItems); s.Some? && !s.value.1
    requires ListsParse(value)
    ensures var recs, r := Field(value, "recommendations").items, Sanitize(value, candidates, maxItems).value.0;
            ValidItems(ById(candidates), recs) == Some(r.recommendations) && |recs| <= maxItems
  {
    var byId, recs := ById(candidates), Field(value, "recommendations").items;
    var draft, r := Cleaned(value, candidates).0, Sanitize(value, candidates, maxItems).value.0;
    DraftItems(value, candidates, maxItems);
    CleanRecs(byId, recs, value);
    ValidDraftStays(byId, recs, draft.recommendations, r.recommendations);
    ItemsPass(ItemCheck(byId), recs, r.recommendations);
  }

  lemma CleanRecs(byId: Evidence, recs: seq<Json>, value: Json)
    requires ListsParse(value) && recs == Field(value, "recommendations").items
    requires !CleanItems(byId, recs).1
    ensures Elementwise(ItemCheck(byId), recs, CleanItems(byId, recs).0)
  {
    var salvage := ItemSalvage(byId);
    forall rec ensures salvage(rec).0.None? ==> salvage(rec).1 {
      DroppedIsFlagged(byId, rec);
    }
    UnflaggedItems(salvage, recs);
    UnflaggedAreValid(value, byId, CleanItems(byId, recs).0);
  }

  lemma UnflaggedAndReadIsValid(value: Json, candidates: seq<CandidateEvidence>, maxItems: nat)
    requires var s := Sanitize(value, candidates, maxItems); s.Some? && !s.value.1
    requires ListsParse(value)
    ensures Validate(value, candidates, maxItems) == Some(Sanitize(value, candidates, maxItems).value.0)
  {
    var draft, r := Cleaned(value, candidates).0, Sanitize(value, candidates, maxItems).value.0;
    UnflaggedItemsAreValid(value, candidates, maxItems);
    UnflaggedSummary(value, candidates, draft, r, maxItems);
    ValidatedIsWellFormed(Encode(draft), candidates, maxItems);
  }

  /**
    The flag tells only half the story: an unreadable list is replaced by an empty one
    without raising it. An unflagged result is the strictly validated one exactly when
    every list could be read.
   */
  lemma UnflaggedMeansValidIff(value: Json, candidates: seq<CandidateEvidence>, maxItems: nat)
    requires var s := Sanitize(value, candidates, maxItems); s.Some? && !s.value.1
    ensures Validate(value, candidates, maxItems) == Some(Sanitize(value, candidates, maxItems).value.0)
        <==> ListsParse(value)
  {
    if ListsParse(value) {
      UnflaggedAndReadIsValid(value, candidates, maxItems);
    }
    if Validate(value, candidates, maxItems).Some? {
      ValidMeansListsParse(value, candidates, maxItems);
    }
  }

  lemma ValidMeansListsParse(value: Json, candidates: seq<CandidateEvidence>, maxItems: nat)
    requires Validate(value, candidates, maxItems).Some?
    ensures ListsParse(value)
  {
    var byId, recs := ById(candidates), Field(value, "recommendations").items;
    PassedAreItems(ItemCheck(byId), recs);
    forall item <- recs ensures ValidItem(byId, item).Some? {
      var i :| 0 <= i < |recs| && recs[i] == item;
      assert ItemCheck(byId)(recs[i]).Some?;
    }
  }

  lemma UnflaggedAreValid(value: Json, byId: Evidence, items: seq<AiRankItem>)
    requires ListsParse(value) && Unflagged(ItemSalvage(byId), Field(value, "recommendations").items, items)
    ensures Elementwise(ItemCheck(byId), Field(value, "recommendations").items, items)
  {
    var recs := Field(value, "recommendations").items;
    forall i | 0 <= i < |recs| ensures ItemCheck(byId)(recs[i]) == Some(items[i]) {
      assert recs[i] in recs && ItemSalvage(byId)(recs[i]) == (Some(items[i]), false);
      UnflaggedItemIsValid(byId, recs[i]);
    }
  }

  lemma ValidDraftStays(byId: Evidence, recs: seq<Json>, draft: seq<AiRankItem>, stored: seq<AiRankItem>)
    requires Elementwise(ItemCheck(byId), recs, draft) && Elementwise(ItemCheck(byId), EncodeItems(draft), stored)
    ensures draft == stored
  {
    ItemsAreWellFormed(byId, recs, draft);
    forall i | 0 <= i < |draft| ensures draft[i] == stored[i] {
      assert draft[i] in draft;
      WellFormedItemStays(byId, draft[i]);
      assert ItemCheck(byId)(EncodeItems(draft)[i]) == Some(stored[i]);
    }
  }

  lemma UnflaggedSummary(value: Json, candidates: seq<CandidateEvidence>, draft: AiRankResult, r: AiRankResult,
      maxItems: nat)
    requires Field(value, "recommendations").Arr? && SummaryEvidence(value.fields).Some?
    requires Cleaned(value, candidates).0 == draft && !CleanSummary(value.fields, AllEvidence(candidates)).2
    requires Validate(Encode(draft), candidates, maxItems) == Some(r)
    ensures r.summary == Summary(value.fields) && r.summaryEvidenceIds == SummaryEvidence(value.fields).value
    ensures Acceptable(Summary(value.fields), MAX_SUMMARY_CHARS)
  {
    var cited, all := SummaryEvidence(value.fields).value, AllEvidence(candidates);
    RetainedAll(cited, all);
    TextArrayIsClean(value.fields["summary_evidence_ids"], MAX_SUMMARY_EVIDENCE, MAX_EVIDENCE_ID_CHARS);
    TextArrayStays(cited, MAX_SUMMARY_EVIDENCE, MAX_EVIDENCE_ID_CHARS);
    EncodedFields(draft);
    var v := Get(value.fields, "summary");
    if v.Str? {
      TrimTrims(v.s);
      TrimFixes(Trim(v.s));
    } else {
      TrimFixes("");
    }
  }

  ghost function UnreadableEntry(): Json {
    Obj(map["app_id" := Int(1), "fit_score" := Float(0.5), "confidence" := Float(0.5), "reasons" := Null])
  }

  ghost function UnreadableRanking(): Json {
    Obj(map["recommendations" := Arr([UnreadableEntry()]), "summary_evidence_ids" := Arr([])])
  }

  /** The half that is missing, concretely: reasons that are no list vanish without a flag. */
  lemma UnreadableListVanishesSilently()
    ensures var candidates, item := [CandidateEvidence(1, [])], AiRankItem(1, 0.5, 0.5, [], [], []);
            && Validate(UnreadableRanking(), candidates, 1).None?
            && Sanitize(UnreadableRanking(), candidates, 1) == Some((AiRankResult([item], "", []), false))
  {
    var candidates, item := [CandidateEvidence(1, [])], AiRankItem(1, 0.5, 0.5, [], [], []);
    var byId, entry := ById(candidates), UnreadableEntry();
    assert candidates[..0] == [];
    assert byId == map[1 := []];
    assert CleanItem(byId, entry) == (Some(item), false) && ValidItem(byId, entry).None?;
    var recs := [entry];
    SingleEntry(ItemCheck(byId), ItemSalvage(byId), entry);
    assert CleanItems(byId, recs) == ([item], false) && ValidItems(byId, recs).None?;
    var r := AiRankResult([item], "", []);
    EmptyIsFine();
    assert Cleaned(UnreadableRanking(), candidates) == (r, false);
    assert WellFormed(r, candidates, 1);
    WellFormedSurvivesStorage(r, candidates, 1);
  }

  lemma SingleEntry(check: Check, salvage: Salvage, entry: Json)
    ensures check(entry).None? ==> AllPass(check, [entry]).None?
    ensures salvage(entry).0.Some? ==> AllSalvaged(salvage, [entry]) == ([salvage(entry).0.value], salvage(entry).1)
  {
    var recs := [entry];
    assert recs[..|recs| - 1] == [];
    if salvage(entry).0.Some? {
      assert [] + [salvage(entry).0.value] == [salvage(entry).0.value];
    }
  }

  lemma EmptyIsFine()
    ensures !LooksLikeHtmlOrUrl("") && Trim("") == ""
  {
    assert Lower("") == "";
  }

  // ----- The cache -----

  /**
    Whatever the degradation lets through, strict, sanitized or ranking only, is
    well-formed; stored and read back it validates to the same result, untouched.
   */
  lemma CacheReturnsWhatWasStored(value: Json, candidates: seq<CandidateEvidence>, maxItems: nat)
    requires Degrade(value, candidates, maxItems).Some?
    ensures var r := Degrade(value, candidates, maxItems).value.0;
            && WellFormed(r, candidates, maxItems)
            && Validate(Encode(r), candidates, maxItems) == Some(r)
            && Degrade(Encode(r), candidates, maxItems) == Some((r, Untouched))
  {
    var r := Degrade(value, candidates, maxItems).value.0;
    if Validate(value, candidates, maxItems).Some? {
      ValidatedIsWellFormed(value, candidates, maxItems);
    } else if Sanitize(value, candidates, maxItems).Some? {
      SanitizeIsConservative(value, candidates, maxItems);
    } else {
      ValidatedIsWellFormed(BareRanking(Field(value, "recommendations").items), candidates, maxItems);
    }
    WellFormedSurvivesStorage(r, candidates, maxItems);
  }
}
