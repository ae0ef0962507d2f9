/** JSON values as the service reads them: integers and floats are distinct numbers. */
module JsonValues {
  import opened Outcomes
  import opened MachineInts

  datatype Json =
    | Null
    | Bool(b: bool)
    | Int(n: int)
    | Float(r: real)
    | Str(s: string)
    | Arr(items: seq<Json>)
    | Obj(fields: map<string, Json>)

  type Fields = map<string, Json>

  function Get(f: Fields, key: string): Json {
    if key in f then f[key] else Null
  }

  /** Indexing a value that is not an object finds nothing. */
  function Field(v: Json, key: string): Json {
    if v.Obj? then Get(v.fields, key) else Null
  }

  function AsU64(v: Json): Option<U64> {
    if v.Int? && 0 <= v.n <= U64_MAX then Some(v.n) else None
  }

  function AsF64(v: Json): Option<real> {
    match v
    case Int(n) => Some(n as real)
    case Float(r) => Some(r)
    case _ => None
  }

  function StringArray(list: seq<string>): Json {
    Arr(seq(|list|, i requires 0 <= i < |list| => Str(list[i])))
  }
}

/**
  The checks between a language model's ranking and the user: strict validation, the
  sanitizer that salvages what it can, and the degradation that combines them. Error texts
  are not modelled; a refusal is None.
 */
module RankValidation {
  import opened Outcomes
  import opened MachineInts
  import opened JsonValues
  import opened Text
  import Sorting

  const MAX_REASONS := 6
  const MAX_CAUTIONS := 4
  const MAX_EVIDENCE := 12
  const MAX_SUMMARY_EVIDENCE := 20
  const MAX_REASON_CHARS := 240
  const MAX_SUMMARY_CHARS := 500
  const MAX_EVIDENCE_ID_CHARS := 120

  datatype AiRankItem = AiRankItem(
    appId: U32,
    fitScore: real,
    confidence: real,
    reasonEvidenceIds: seq<string>,
    reasons: seq<string>,
    cautions: seq<string>)

  datatype AiRankResult = AiRankResult(
    recommendations: seq<AiRankItem>,
    summary: string,
    summaryEvidenceIds: seq<string>)

  /** The evidence set in the order in which the hash set happens to iterate. */
  datatype CandidateEvidence = CandidateEvidence(appId: U32, evidenceIds: seq<string>)

  type Evidence = map<U32, seq<string>>

  /** Collecting into a map: a later candidate of the same id wins. */
  function ById(candidates: seq<CandidateEvidence>): Evidence {
    if candidates == [] then map[]
    else
      var last := candidates[|candidates| - 1];
      ById(candidates[..|candidates| - 1])[last.appId := last.evidenceIds]
  }

  function Union(seen: seq<string>, more: seq<string>): seq<string>
    decreases |more|
  {
    if more == [] then seen
    else Union(if more[0] in seen then seen else seen + [more[0]], more[1..])
  }

  /** All evidence ids, each once. */
  function AllEvidence(candidates: seq<CandidateEvidence>): seq<string> {
    if candidates == [] then []
    else Union(AllEvidence(candidates[..|candidates| - 1]), candidates[|candidates| - 1].evidenceIds)
  }

  // ----- Fields -----

  predicate LooksLikeHtmlOrUrl(text: string) {
    var lower := Lower(text);
    || Contains(lower, "<") || Contains(lower, ">")
    || Contains(lower, "javascript:") || Contains(lower, "http://") || Contains(lower, "https://")
  }

  predicate Acceptable(text: string, maxChars: nat) {
    |text| <= maxChars && !LooksLikeHtmlOrUrl(text)
  }

  /** Trimmed entries with blank ones skipped; None when an entry is not an acceptable string. */
  function CleanTexts(entries: seq<Json>, maxChars: nat): Option<seq<string>> {
    if entries == [] then Some([])
    else
      var before, last := CleanTexts(entries[..|entries| - 1], maxChars), entries[|entries| - 1];
      if before.None? || !last.Str? then None
      else if Trim(last.s) == "" then before
      else if Acceptable(Trim(last.s), maxChars) then Some(before.value + [Trim(last.s)])
      else None
  }

  function TextArray(v: Json, maxItems: nat, maxChars: nat): Option<seq<string>> {
    if v.Arr? && |v.items| <= maxItems then CleanTexts(v.items, maxChars) else None
  }

  /** An item's list may be missing; the root list may not. */
  function StringList(f: Fields, key: string, maxItems: nat, maxChars: nat): Option<seq<string>> {
    if key !in f then Some([]) else TextArray(f[key], maxItems, maxChars)
  }

  function RootStringList(f: Fields, key: string, maxItems: nat, maxChars: nat): Option<seq<string>> {
    if key !in f then None else TextArray(f[key], maxItems, maxChars)
  }

  function UnitField(f: Fields, key: string): Option<real> {
    var value := AsF64(Get(f, key));
    if value.Some? && 0.0 <= value.value <= 1.0 then value else None
  }

  function Reasons(f: Fields): Option<seq<string>> {
    StringList(f, "reasons", MAX_REASONS, MAX_REASON_CHARS)
  }

  function Cautions(f: Fields): Option<seq<string>> {
    StringList(f, "cautions", MAX_CAUTIONS, MAX_REASON_CHARS)
  }

  function ReasonEvidence(f: Fields): Option<seq<string>> {
    StringList(f, "reason_evidence_ids", MAX_EVIDENCE, MAX_EVIDENCE_ID_CHARS)
  }

  function SummaryEvidence(f: Fields): Option<seq<string>> {
    RootStringList(f, "summary_evidence_ids", MAX_SUMMARY_EVIDENCE, MAX_EVIDENCE_ID_CHARS)
  }

  function Summary(f: Fields): string {
    var v := Get(f, "summary");
    if v.Str? then Trim(v.s) else ""
  }

  /** The item's application id, if it is a 32-bit number of a candidate. */
  function CandidateId(byId: Evidence, item: Json): Option<U32> {
    var raw := AsU64(Field(item, "app_id"));
    if raw.Some? && raw.value <= U32_MAX && raw.value in byId then Some(raw.value) else None
  }

  predicate Within(list: seq<string>, allowed: seq<string>) {
    forall x <- list :: x in allowed
  }

  // ----- Strict validation -----

  /** One recommendation, apart from duplicates. */
  function ValidItem(byId: Evidence, item: Json): Option<AiRankItem> {
    var id := CandidateId(byId, item);
    if id.None? then None
    else
      var f := item.fields;
      var fit, confidence := UnitField(f, "fit_score"), UnitField(f, "confidence");
      var reasons, cautions, evidence := Reasons(f), Cautions(f), ReasonEvidence(f);
      if fit.None? || confidence.None? || reasons.None? || cautions.None? || evidence.None? then None
      else if !Within(evidence.value, byId[id.value]) then None
      else if (reasons.value != [] || cautions.value != []) && evidence.value == [] then None
      else Some(AiRankItem(id.value, fit.value, confidence.value, evidence.value, reasons.value, cautions.value))
  }

  function Ids(items: seq<AiRankItem>): set<U32> {
    set x <- items :: x.appId
  }

  type Check = Json -> Option<AiRankItem>

  /** Every entry passes the check, and no id comes twice. */
  function AllPass(check: Check, recs: seq<Json>): Option<seq<AiRankItem>> {
    if recs == [] then Some([])
    else
      var before, item := AllPass(check, recs[..|recs| - 1]), check(recs[|recs| - 1]);
      if before.None? || item.None? || item.value.appId in Ids(before.value) then None
      else Some(before.value + [item.value])
  }

  function ItemCheck(byId: Evidence): Check {
    item => ValidItem(byId, item)
  }

  function ValidItems(byId: Evidence, recs: seq<Json>): Option<seq<AiRankItem>> {
    AllPass(ItemCheck(byId), recs)
  }

  function Validate(value: Json, candidates: seq<CandidateEvidence>, maxItems: nat): Option<AiRankResult> {
    var recs := Field(value, "recommendations");
    if !recs.Arr? || |recs.items| > maxItems then None
    else
      var items, evidence := ValidItems(ById(candidates), recs.items), SummaryEvidence(value.fields);
      var summary := Summary(value.fields);
      if items.None? || evidence.None? then None
      else if !Acceptable(summary, MAX_SUMMARY_CHARS) then None
      else if !Within(evidence.value, AllEvidence(candidates)) then None
      else if summary != "" && evidence.value == [] then None
      else Some(AiRankResult(items.value, summary, evidence.value))
  }

  // ----- The sanitizer -----

  function Retained(list: seq<string>, allowed: seq<string>): seq<string> {
    if list == [] then []
    else Retained(list[..|list| - 1], allowed) + if list[|list| - 1] in allowed then [list[|list| - 1]] else []
  }

  predicate StringBefore(a: string, b: string) {
    a == "" || (b != "" && (a[0] < b[0] || (a[0] == b[0] && StringBefore(a[1..], b[1..]))))
  }

  /** The first n ids in sorted order. */
  function FirstSorted(ids: seq<string>, n: nat): seq<string> {
    var sorted := Sorting.Sort(StringBefore, ids);
    if |sorted| <= n then sorted else sorted[..n]
  }

  /** One recommendation salvaged or dropped, and whether the flag is raised. */
  function CleanItem(byId: Evidence, item: Json): (Option<AiRankItem>, bool) {
    var id := CandidateId(byId, item);
    if id.None? then (None, true)
    else
      var f, allowed := item.fields, byId[id.value];
      var cited := ReasonEvidence(f).GetOr([]);
      var known := Retained(cited, allowed);
      var reasons, cautions := Reasons(f).GetOr([]), Cautions(f).GetOr([]);
      var orphaned := (reasons != [] || cautions != []) && known == [];
      var evidence := if orphaned then FirstSorted(allowed, 3) else known;
      var mute := orphaned && allowed == [];
      var fit, confidence := UnitField(f, "fit_score"), UnitField(f, "confidence");
      if fit.None? || confidence.None? then (None, true)
      else
        (Some(AiRankItem(id.value, fit.value, confidence.value, evidence,
                         if mute then [] else reasons, if mute then [] else cautions)),
         |known| != |cited| || orphaned)
  }

  type Salvage = Json -> (Option<AiRankItem>, bool)

  /** What can be salvaged, and whether any flag was raised. */
  function AllSalvaged(salvage: Salvage, recs: seq<Json>): (seq<AiRankItem>, bool) {
    if recs == [] then ([], false)
    else
      var (before, flagged) := AllSalvaged(salvage, recs[..|recs| - 1]);
      var (item, raised) := salvage(recs[|recs| - 1]);
      (if item.Some? then before + [item.value] else before, flagged || raised)
  }

  function ItemSalvage(byId: Evidence): Salvage {
    item => CleanItem(byId, item)
  }

  function CleanItems(byId: Evidence, recs: seq<Json>): (seq<AiRankItem>, bool) {
    AllSalvaged(ItemSalvage(byId), recs)
  }

  /** Summary, its evidence, and whether the flag is raised. */
  function CleanSummary(f: Fields, all: seq<string>): (string, seq<string>, bool) {
    var summary, cited := Summary(f), SummaryEvidence(f).GetOr([]);
    var known := Retained(cited, all);
    var raised := |known| != |cited|;
    if LooksLikeHtmlOrUrl(summary) then ("", [], true)
    else
      var orphaned := summary != "" && known == [];
      var kept := if orphaned && all == [] then "" else summary;
      var evidence := if orphaned then FirstSorted(all, 4) else known;
      if |kept| > MAX_SUMMARY_CHARS then (kept[..MAX_SUMMARY_CHARS], evidence, true)
      else (kept, evidence, raised || orphaned)
  }

  function EncodeItem(item: AiRankItem): Json {
    Obj(map[
      "app_id" := Int(item.appId),
      "fit_score" := Float(item.fitScore),
      "confidence" := Float(item.confidence),
      "reason_evidence_ids" := StringArray(item.reasonEvidenceIds),
      "reasons" := StringArray(item.reasons),
      "cautions" := StringArray(item.cautions)])
  }

  function EncodeItems(items: seq<AiRankItem>): seq<Json> {
    seq(|items|, i requires 0 <= i < |items| => EncodeItem(items[i]))
  }

  /** The stored form, which is also what the sanitizer hands to the validator. */
  function Encode(r: AiRankResult): Json {
    Obj(map[
      "recommendations" := Arr(EncodeItems(r.recommendations)),
      "summary" := Str(r.summary),
      "summary_evidence_ids" := StringArray(r.summaryEvidenceIds)])
  }

  function Cleaned(value: Json, candidates: seq<CandidateEvidence>): (AiRankResult, bool)
    requires Field(value, "recommendations").Arr?
  {
    var (items, flagged) := CleanItems(ById(candidates), Field(value, "recommendations").items);
    var (summary, evidence, raised) := CleanSummary(value.fields, AllEvidence(candidates));
    (AiRankResult(items, summary, evidence), flagged || raised)
  }

  function Sanitize(value: Json, candidates: seq<CandidateEvidence>, maxItems: nat): Option<(AiRankResult, bool)> {
    if !Field(value, "recommendations").Arr? then None
    else
      var (draft, stripped) := Cleaned(value, candidates);
      if draft.recommendations == [] && Field(value, "recommendations").items != [] then None
      else
        var result := Validate(Encode(draft), candidates, maxItems);
        if result.None? then None else Some((result.value, stripped))
  }

  // ----- Degradation -----

  datatype Notice = Untouched | WasSanitized | RankingOnly

  function BareItem(item: Json): Json {
    Obj(map[
      "app_id" := Field(item, "app_id"),
      "fit_score" := Field(item, "fit_score"),
      "confidence" := Field(item, "confidence"),
      "reason_evidence_ids" := Arr([]),
      "reasons" := Arr([]),
      "cautions" := Arr([])])
  }

  function BareRanking(recs: seq<Json>): Json {
    Obj(map[
      "recommendations" := Arr(seq(|recs|, i requires 0 <= i < |recs| => BareItem(recs[i]))),
      "summary" := Str(""),
      "summary_evidence_ids" := Arr([])])
  }

  function Degrade(value: Json, candidates: seq<CandidateEvidence>, maxItems: nat): Option<(AiRankResult, Notice)> {
    var strict := Validate(value, candidates, maxItems);
    if strict.Some? then Some((strict.value, Untouched))
    else
      var salvaged := Sanitize(value, candidates, maxItems);
      if salvaged.Some? then Some((salvaged.value.0, if salvaged.value.1 then WasSanitized else Untouched))
      else if !Field(value, "recommendations").Arr? then None
      else
        var bare := Validate(BareRanking(Field(value, "recommendations").items), candidates, maxItems);
        if bare.None? then None else Some((bare.value, RankingOnly))
  }

  // ----- The code: loops that push, mark and flag -----

  method ReadTexts(entries: seq<Json>, maxChars: nat) returns (texts: Option<seq<string>>)
    ensures texts == CleanTexts(entries, maxChars)
  {
    var out: seq<string> := [];
    for i := 0 to |entries|
      invariant CleanTexts(entries[..i], maxChars) == Some(out)
    {
      assert entries[..i + 1][..i] == entries[..i];
      if !entries[i].Str? {
        FailureIsFinal(entries, i + 1, maxChars);
        return None;
      }
      var trimmed := Trim(entries[i].s);
      if trimmed == "" {
        continue;
      }
      if !Acceptable(trimmed, maxChars) {
        FailureIsFinal(entries, i + 1, maxChars);
        return None;
      }
      out := out + [trimmed];
    }
    assert entries[..|entries|] == entries;
    texts := Some(out);
  }

  lemma {:induction false} FailureIsFinal(entries: seq<Json>, n: nat, maxChars: nat)
    requires n <= |entries| && CleanTexts(entries[..n], maxChars).None?
    ensures CleanTexts(entries, maxChars).None?
  {
    if n < |entries| {
      assert entries[..|entries| - 1][..n] == entries[..n];
      FailureIsFinal(entries[..|entries| - 1], n, maxChars);
    } else {
      assert entries[..n] == entries;
    }
  }

  method ReadStringList(f: Fields, key: string, maxItems: nat, maxChars: nat) returns (texts: Option<seq<string>>)
    ensures texts == StringList(f, key, maxItems, maxChars)
  {
    if key !in f {
      return Some([]);
    }
    if !f[key].Arr? || |f[key].items| > maxItems {
      return None;
    }
    texts := ReadTexts(f[key].items, maxChars);
  }

  method ReadRootList(f: Fields, key: string, maxItems: nat, maxChars: nat) returns (texts: Option<seq<string>>)
    ensures texts == RootStringList(f, key, maxItems, maxChars)
  {
    if key !in f || !f[key].Arr? || |f[key].items| > maxItems {
      return None;
    }
    texts := ReadTexts(f[key].items, maxChars);
  }

  /** One entry of the strict loop, apart from duplicates. */
  method ValidateItem(byId: Evidence, item: Json) returns (r: Option<AiRankItem>)
    ensures r == ValidItem(byId, item)
  {
    var id := CandidateId(byId, item);
    if id.None? {
      return None;
    }
    var f := item.fields;
    var fit, confidence := UnitField(f, "fit_score"), UnitField(f, "confidence");
    var reasons := ReadStringList(f, "reasons", MAX_REASONS, MAX_REASON_CHARS);
    var cautions := ReadStringList(f, "cautions", MAX_CAUTIONS, MAX_REASON_CHARS);
    var evidence := ReadStringList(f, "reason_evidence_ids", MAX_EVIDENCE, MAX_EVIDENCE_ID_CHARS);
    if fit.None? || confidence.None? || reasons.None? || cautions.None? || evidence.None? {
      return None;
    }
    if !Within(evidence.value, byId[id.value]) {
      return None;
    }
    if (reasons.value != [] || cautions.value != []) && evidence.value == [] {
      return None;
    }
    r := Some(AiRankItem(id.value, fit.value, confidence.value, evidence.value, reasons.value, cautions.value));
  }

  /** One entry of the salvaging loop. */
  method SanitizeItem(byId: Evidence, item: Json) returns (r: (Option<AiRankItem>, bool))
    ensures r == CleanItem(byId, item)
  {
    var id := CandidateId(byId, item);
    if id.None? {
      return (None, true);
    }
    var f, allowed := item.fields, byId[id.value];
    var cited := ReadStringList(f, "reason_evidence_ids", MAX_EVIDENCE, MAX_EVIDENCE_ID_CHARS);
    var evidence := Retained(cited.GetOr([]), allowed);
    var stripped := |evidence| != |cited.GetOr([])|;
    var read := ReadStringList(f, "reasons", MAX_REASONS, MAX_REASON_CHARS);
    var reasons := read.GetOr([]);
    read := ReadStringList(f, "cautions", MAX_CAUTIONS, MAX_REASON_CHARS);
    var cautions := read.GetOr([]);
    if (reasons != [] || cautions != []) && evidence == [] {
      stripped := true;
      if allowed == [] {
        reasons, cautions := [], [];
      }
      evidence := FirstSorted(allowed, 3);
    }
    var fit, confidence := UnitField(f, "fit_score"), UnitField(f, "confidence");
    if fit.None? || confidence.None? {
      return (None, true);
    }
    r := (Some(AiRankItem(id.value, fit.value, confidence.value, evidence, reasons, cautions)), stripped);
  }

  method ValidateRankResult(value: Json, candidates: seq<CandidateEvidence>, maxItems: nat)
      returns (r: Option<AiRankResult>)
    ensures r == Validate(value, candidates, maxItems)
  {
    var recs := Field(value, "recommendations");
    if !recs.Arr? || |recs.items| > maxItems {
      return None;
    }
    var items := ValidateItems(ById(candidates), recs.items);
    if items.None? {
      return None;
    }
    var summary := Summary(value.fields);
    if !Acceptable(summary, MAX_SUMMARY_CHARS) {
      return None;
    }
    var evidence := ReadRootList(value.fields, "summary_evidence_ids", MAX_SUMMARY_EVIDENCE, MAX_EVIDENCE_ID_CHARS);
    if evidence.None? || !Within(evidence.value, AllEvidence(candidates)) {
      return None;
    }
    if summary != "" && evidence.value == [] {
      return None;
    }
    r := Some(AiRankResult(items.value, summary, evidence.value));
  }

  method ValidateItems(byId: Evidence, recs: seq<Json>) returns (r: Option<seq<AiRankItem>>)
    ensures r == ValidItems(byId, recs)
  {
    var seen: set<U32> := {};
    var items: seq<AiRankItem> := [];
    ghost var check := ItemCheck(byId);
    for i := 0 to |recs|
      invariant AllPass(check, recs[..i]) == Some(items)
      invariant seen == Ids(items)
    {
      assert recs[..i + 1][..i] == recs[..i];
      var item := ValidateItem(byId, recs[i]);
      assert item == check(recs[i]);
      if item.None? || item.value.appId in seen {
        RefusalIsFinal(check, recs, i + 1);
        return None;
      }
      seen := seen + {item.value.appId};
      items := items + [item.value];
    }
    assert recs[..|recs|] == recs;
    r := Some(items);
  }

  lemma {:induction false} RefusalIsFinal(check: Check, recs: seq<Json>, n: nat)
    requires n <= |recs| && AllPass(check, recs[..n]).None?
    ensures AllPass(check, recs).None?
  {
    if n < |recs| {
      assert recs[..|recs| - 1][..n] == recs[..n];
      RefusalIsFinal(check, recs[..|recs| - 1], n);
    } else {
      assert recs[..n] == recs;
    }
  }

  method SanitizeRankResult(value: Json, candidates: seq<CandidateEvidence>, maxItems: nat)
    returns (r: Option<(AiRankResult, bool)>)
    ensures r == Sanitize(value, candidates, maxItems)
  {
    var recs := Field(value, "recommendations");
    if !recs.Arr? {
      return None;
    }
    var salvage := SanitizeItems(ById(candidates), recs.items);
    var (cleaned, flagged) := salvage;
    var (summary, evidence, raised) := CleanSummary(value.fields, AllEvidence(candidates));
    if cleaned == [] && recs.items != [] {
      return None;
    }
    var result := ValidateRankResult(Encode(AiRankResult(cleaned, summary, evidence)), candidates, maxItems);
    if result.None? {
      return None;
    }
    r := Some((result.value, flagged || raised));
  }

  method SanitizeItems(byId: Evidence, recs: seq<Json>) returns (r: (seq<AiRankItem>, bool))
    ensures r == CleanItems(byId, recs)
  {
    var cleaned: seq<AiRankItem> := [];
    var stripped := false;
    for i := 0 to |recs|
      invariant AllSalvaged(ItemSalvage(byId), recs[..i]) == (cleaned, stripped)
    {
      assert recs[..i + 1][..i] == recs[..i];
      var cleanedItem := SanitizeItem(byId, recs[i]);
      var (item, raised) := cleanedItem;
      assert (item, raised) == ItemSalvage(byId)(recs[i]);
      stripped := stripped || raised;
      if item.Some? {
        cleaned := cleaned + [item.value];
      }
    }
    assert recs[..|recs|] == recs;
    r := (cleaned, stripped);
  }
}
