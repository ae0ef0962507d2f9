/** What the sanitizer keeps, entry by entry and word by word. */
module RankSalvageLaws {
  import opened Outcomes
  import opened MachineInts
  import opened JsonValues
  import opened Text
  import opened RankValidation
  import opened RankValidationLaws
  import Sorting

  // ----- Reading lists -----

  ghost predicate ReadableText(v: Json, chars: nat) {
    v.Str? && (Trim(v.s) == "" || (|Trim(v.s)| <= chars && !LooksLikeHtmlOrUrl(Trim(v.s))))
  }

  ghost predicate AllReadable(entries: seq<Json>, chars: nat) {
    forall e <- entries :: ReadableText(e, chars)
  }

  ghost predicate ReadableList(v: Json, items: nat, chars: nat) {
    v.Arr? && |v.items| <= items && AllReadable(v.items, chars)
  }

  /** The texts without their padding, blank ones left out. */
  ghost function Written(entries: seq<Json>): seq<string> {
    if entries == [] then []
    else (if entries[0].Str? && Trim(entries[0].s) != "" then [Trim(entries[0].s)] else []) + Written(entries[1..])
  }

  /** What a list says; nothing if it is missing or cannot be read as a whole. */
  ghost function TextsOf(f: Fields, key: string, items: nat, chars: nat): seq<string> {
    if key in f && ReadableList(f[key], items, chars) then Written(f[key].items) else []
  }

  lemma {:induction false} WrittenSnoc(entries: seq<Json>, last: Json)
    ensures Written(entries + [last]) ==
              Written(entries) + if last.Str? && Trim(last.s) != "" then [Trim(last.s)] else []
  {
    if entries == [] {
      assert entries + [last] == [last] && [last][1..] == [];
    } else {
      assert (entries + [last])[1..] == entries[1..] + [last];
      WrittenSnoc(entries[1..], last);
    }
  }

  lemma ReadableSnoc(entries: seq<Json>, last: Json, chars: nat)
    ensures AllReadable(entries + [last], chars) <==> AllReadable(entries, chars) && ReadableText(last, chars)
  {
    var all := entries + [last];
    assert last in all && forall e <- entries :: e in all;
    assert forall e <- all :: e in entries || e == last;
  }

  lemma {:induction false} TextsAreRead(entries: seq<Json>, chars: nat)
    ensures CleanTexts(entries, chars).Some? <==> AllReadable(entries, chars)
    ensures CleanTexts(entries, chars).Some? ==> CleanTexts(entries, chars).value == Written(entries)
  {
    if entries != [] {
      var before, last := entries[..|entries| - 1], entries[|entries| - 1];
      assert entries == before + [last];
      TextsAreRead(before, chars);
      WrittenSnoc(before, last);
      ReadableSnoc(before, last, chars);
    }
  }

  /** A list is read exactly when each of its texts is readable, and then says what is written. */
  lemma ListsAreRead(f: Fields, key: string, items: nat, chars: nat)
    ensures StringList(f, key, items, chars).GetOr([]) == TextsOf(f, key, items, chars)
    ensures RootStringList(f, key, items, chars).GetOr([]) == TextsOf(f, key, items, chars)
    ensures StringList(f, key, items, chars).Some? <==> (key in f ==> ReadableList(f[key], items, chars))
    ensures RootStringList(f, key, items, chars).Some? <==> key in f && ReadableList(f[key], items, chars)
  {
    if key in f && f[key].Arr? {
      TextsAreRead(f[key].items, chars);
    }
  }

  // ----- Evidence -----

  ghost function Known(cited: seq<string>, allowed: seq<string>): seq<string> {
    if cited == [] then []
    else (if cited[0] in allowed then [cited[0]] else []) + Known(cited[1..], allowed)
  }

  lemma {:induction false} KnownSnoc(cited: seq<string>, last: string, allowed: seq<string>)
    ensures Known(cited + [last], allowed) == Known(cited, allowed) + if last in allowed then [last] else []
  {
    if cited == [] {
      assert cited + [last] == [last] && [last][1..] == [];
    } else {
      assert (cited + [last])[1..] == cited[1..] + [last];
      KnownSnoc(cited[1..], last, allowed);
    }
  }

  lemma {:induction false} RetainedIsKnown(cited: seq<string>, allowed: seq<string>)
    ensures Retained(cited, allowed) == Known(cited, allowed)
  {
    if cited != [] {
      var before, last := cited[..|cited| - 1], cited[|cited| - 1];
      assert cited == before + [last];
      RetainedIsKnown(before, allowed);
      KnownSnoc(before, last, allowed);
    }
  }

  lemma {:induction false} BeforeIsTotal(a: string, b: string)
    ensures StringBefore(a, b) || StringBefore(b, a)
  {
    if a != "" && b != "" && a[0] == b[0] {
      BeforeIsTotal(a[1..], b[1..]);
    }
  }

  lemma {:induction false} BeforeIsTransitive(a: string, b: string, c: string)
    requires StringBefore(a, b) && StringBefore(b, c)
    ensures StringBefore(a, c)
  {
    if a != "" && b != "" && c != "" && a[0] == b[0] == c[0] {
      BeforeIsTransitive(a[1..], b[1..], c[1..]);
    }
  }

  lemma BeforeIsAnOrder()
    ensures Sorting.Preorder(StringBefore)
  {
    forall a, b ensures StringBefore(a, b) || StringBefore(b, a) {
      BeforeIsTotal(a, b);
    }
    forall a, b, c | StringBefore(a, b) && StringBefore(b, c) ensures StringBefore(a, c) {
      BeforeIsTransitive(a, b, c);
    }
  }

  /** The first n ids in the order of their characters. */
  ghost predicate LeastOf(ids: seq<string>, n: nat, out: seq<string>) {
    && |out| == Min(n, |ids|)
    && Sorting.Ordered(StringBefore, out)
    && exists rest: seq<string> ::
         multiset(out + rest) == multiset(ids) && forall o <- out, r <- rest :: StringBefore(o, r)
  }

  lemma FirstSortedIsLeast(ids: seq<string>, n: nat)
    ensures LeastOf(ids, n, FirstSorted(ids, n))
  {
    var sorted, out := Sorting.Sort(StringBefore, ids), FirstSorted(ids, n);
    BeforeIsAnOrder();
    Sorting.SortKeeps(StringBefore, ids);
    Sorting.SortOrders(StringBefore, ids);
    var rest := sorted[|out|..];
    assert out + rest == sorted;
    forall o <- out, r <- rest ensures StringBefore(o, r) {
      var i :| 0 <= i < |out| && out[i] == o;
      var j :| 0 <= j < |rest| && rest[j] == r;
      assert sorted[i] == o && sorted[|out| + j] == r;
    }
    assert multiset(out + rest) == multiset(ids);
  }

  // ----- One entry -----

  /** A candidate's id and two scores in range: enough for an entry to be kept. */
  ghost predicate Judgable(byId: Evidence, rec: Json) {
    && rec.Obj?
    && Field(rec, "app_id").Int? && 0 <= Field(rec, "app_id").n < 0x1_0000_0000 && Field(rec, "app_id").n in byId
    && AsF64(Field(rec, "fit_score")).Some? && 0.0 <= AsF64(Field(rec, "fit_score")).value <= 1.0
    && AsF64(Field(rec, "confidence")).Some? && 0.0 <= AsF64(Field(rec, "confidence")).value <= 1.0
  }

  ghost function Cited(rec: Json): seq<string>
    requires rec.Obj?
  {
    TextsOf(rec.fields, "reason_evidence_ids", 12, 120)
  }

  /** The entry makes a claim, and none of the evidence that it cites is the candidate's own. */
  ghost predicate Orphaned(byId: Evidence, rec: Json)
    requires Judgable(byId, rec)
  {
    && (TextsOf(rec.fields, "reasons", 6, 240) != [] || TextsOf(rec.fields, "cautions", 4, 240) != [])
    && forall id <- Cited(rec) :: id !in byId[Field(rec, "app_id").n]
  }

  /** Kept with the evidence that the candidate has; an orphaned claim gets three ids of its own, or is dropped. */
  ghost predicate SalvagedAs(byId: Evidence, rec: Json, x: AiRankItem)
    requires Judgable(byId, rec)
  {
    var allowed := byId[Field(rec, "app_id").n];
    && SameVerdict(x, rec)
    && (if Orphaned(byId, rec) then LeastOf(allowed, 3, x.reasonEvidenceIds)
        else x.reasonEvidenceIds == Known(Cited(rec), allowed))
    && (if Orphaned(byId, rec) && allowed == [] then x.reasons == [] && x.cautions == []
        else
          && x.reasons == TextsOf(rec.fields, "reasons", 6, 240)
          && x.cautions == TextsOf(rec.fields, "cautions", 4, 240))
  }

  /** Something was taken from the entry, or added to it. */
  ghost predicate Stripped(byId: Evidence, rec: Json) {
    || !Judgable(byId, rec)
    || Orphaned(byId, rec)
    || (exists id <- Cited(rec) :: id !in byId[Field(rec, "app_id").n])
  }

  lemma {:induction false} KnownIff(cited: seq<string>, allowed: seq<string>)
    ensures |Known(cited, allowed)| <= |cited|
    ensures |Known(cited, allowed)| == |cited| <==> forall id <- cited :: id in allowed
    ensures Known(cited, allowed) == [] <==> forall id <- cited :: id !in allowed
  {
    if cited != [] {
      KnownIff(cited[1..], allowed);
      assert cited == [cited[0]] + cited[1..];
    }
  }

  lemma ListsOfEntry(f: Fields)
    ensures Reasons(f).GetOr([]) == TextsOf(f, "reasons", 6, 240)
    ensures Cautions(f).GetOr([]) == TextsOf(f, "cautions", 4, 240)
    ensures ReasonEvidence(f).GetOr([]) == TextsOf(f, "reason_evidence_ids", 12, 120)
  {
    ListsAreRead(f, "reasons", 6, 240);
    ListsAreRead(f, "cautions", 4, 240);
    ListsAreRead(f, "reason_evidence_ids", 12, 120);
  }

  lemma JudgableIsRead(byId: Evidence, rec: Json)
    ensures Judgable(byId, rec) <==>
              CandidateId(byId, rec).Some? && UnitField(rec.fields, "fit_score").Some?
              && UnitField(rec.fields, "confidence").Some?
    ensures Judgable(byId, rec) ==> CandidateId(byId, rec) == Some(Field(rec, "app_id").n)
  {
  }

  /** What the code computes on the way, in these terms. */
  lemma EntryIsRead(byId: Evidence, rec: Json)
    requires Judgable(byId, rec)
    ensures var f, allowed := rec.fields, byId[Field(rec, "app_id").n];
            var known := Retained(ReasonEvidence(f).GetOr([]), allowed);
            && known == Known(Cited(rec), allowed)
            && (Orphaned(byId, rec) <==> (Reasons(f).GetOr([]) != [] || Cautions(f).GetOr([]) != []) && known == [])
            && (Stripped(byId, rec) <==> |known| != |ReasonEvidence(f).GetOr([])| || Orphaned(byId, rec))
  {
    var allowed := byId[Field(rec, "app_id").n];
    ListsOfEntry(rec.fields);
    RetainedIsKnown(Cited(rec), allowed);
    KnownIff(Cited(rec), allowed);
  }

  lemma EntryIsKeptAs(byId: Evidence, rec: Json)
    requires Judgable(byId, rec)
    ensures CleanItem(byId, rec).0.Some? && SalvagedAs(byId, rec, CleanItem(byId, rec).0.value)
  {
    JudgableIsRead(byId, rec);
    EntryIsRead(byId, rec);
    ListsOfEntry(rec.fields);
    FirstSortedIsLeast(byId[Field(rec, "app_id").n], 3);
  }

  /** One entry, exactly: whether it is kept, as what, and whether a change is admitted. */
  lemma EntryIsSalvaged(byId: Evidence, rec: Json)
    ensures CleanItem(byId, rec).0.Some? <==> Judgable(byId, rec)
    ensures Judgable(byId, rec) ==> SalvagedAs(byId, rec, CleanItem(byId, rec).0.value)
    ensures CleanItem(byId, rec).1 <==> Stripped(byId, rec)
  {
    JudgableIsRead(byId, rec);
    if Judgable(byId, rec) {
      EntryIsKeptAs(byId, rec);
      EntryIsRead(byId, rec);
    }
  }

  // ----- All entries -----

  /** The items are the judgable entries, in their order, each salvaged. */
  ghost predicate Keeps(byId: Evidence, recs: seq<Json>, items: seq<AiRankItem>) {
    if recs == [] then items == []
    else
      var before, last := recs[..|recs| - 1], recs[|recs| - 1];
      if !Judgable(byId, last) then Keeps(byId, before, items)
      else
        && items != [] && SalvagedAs(byId, last, items[|items| - 1])
        && Keeps(byId, before, items[..|items| - 1])
  }

  lemma {:induction false} EntriesAreSalvaged(byId: Evidence, salvage: Salvage, recs: seq<Json>)
    requires forall rec ::
               && (salvage(rec).0.Some? <==> Judgable(byId, rec))
               && (Judgable(byId, rec) ==> SalvagedAs(byId, rec, salvage(rec).0.value))
               && (salvage(rec).1 <==> Stripped(byId, rec))
    ensures Keeps(byId, recs, AllSalvaged(salvage, recs).0)
    ensures AllSalvaged(salvage, recs).1 <==> exists rec <- recs :: Stripped(byId, rec)
  {
    if recs != [] {
      var before, last := recs[..|recs| - 1], recs[|recs| - 1];
      var kept := AllSalvaged(salvage, before).0;
      EntriesAreSalvaged(byId, salvage, before);
      assert recs == before + [last];
      assert last in recs && forall rec <- before :: rec in recs;
      assert forall rec <- recs :: rec in before || rec == last;
      if Judgable(byId, last) {
        assert (kept + [salvage(last).0.value])[..|kept|] == kept;
      }
    }
  }

  lemma {:induction false} KeptIdsAgree(byId: Evidence, recs: seq<Json>, xs: seq<AiRankItem>, ys: seq<AiRankItem>)
    requires Keeps(byId, recs, xs) && Keeps(byId, recs, ys)
    ensures |xs| == |ys| && forall i | 0 <= i < |xs| :: xs[i].appId == ys[i].appId
  {
    if recs != [] {
      var before, last := recs[..|recs| - 1], recs[|recs| - 1];
      if Judgable(byId, last) {
        KeptIdsAgree(byId, before, xs[..|xs| - 1], ys[..|ys| - 1]);
        forall i | 0 <= i < |xs| ensures xs[i].appId == ys[i].appId {
          if i < |xs| - 1 {
            assert xs[..|xs| - 1][i] == xs[i] && ys[..|ys| - 1][i] == ys[i];
          }
        }
      } else {
        KeptIdsAgree(byId, before, xs, ys);
      }
    }
  }

  // ----- The summary -----

  ghost function SaidSummary(f: Fields): string {
    if "summary" in f && f["summary"].Str? then Trim(f["summary"].s) else ""
  }

  ghost function CitedForSummary(f: Fields): seq<string> {
    TextsOf(f, "summary_evidence_ids", 20, 120)
  }

  ghost predicate SummaryOrphaned(f: Fields, all: seq<string>) {
    SaidSummary(f) != "" && forall id <- CitedForSummary(f) :: id !in all
  }

  /** The first 500 characters of a summary that is no markup and has evidence, which it may be given. */
  ghost predicate SummarySalvagedAs(f: Fields, all: seq<string>, summary: string, evidence: seq<string>) {
    if LooksLikeHtmlOrUrl(SaidSummary(f)) then summary == "" && evidence == []
    else
      && summary == (if SummaryOrphaned(f, all) && all == [] then ""
                     else if |SaidSummary(f)| > 500 then SaidSummary(f)[..500]
                     else SaidSummary(f))
      && if SummaryOrphaned(f, all) then LeastOf(all, 4, evidence)
         else evidence == Known(CitedForSummary(f), all)
  }

  ghost predicate SummaryStripped(f: Fields, all: seq<string>) {
    || LooksLikeHtmlOrUrl(SaidSummary(f)) || SummaryOrphaned(f, all) || |SaidSummary(f)| > 500
    || exists id <- CitedForSummary(f) :: id !in all
  }

  lemma SummaryIsRead(f: Fields, all: seq<string>)
    ensures var known := Retained(SummaryEvidence(f).GetOr([]), all);
            && Summary(f) == SaidSummary(f)
            && known == Known(CitedForSummary(f), all)
            && (SummaryOrphaned(f, all) <==> SaidSummary(f) != "" && known == [])
            && (|known| == |SummaryEvidence(f).GetOr([])| <==> forall id <- CitedForSummary(f) :: id in all)
  {
    ListsAreRead(f, "summary_evidence_ids", 20, 120);
    RetainedIsKnown(CitedForSummary(f), all);
    KnownIff(CitedForSummary(f), all);
  }

  lemma SummaryIsSalvaged(f: Fields, all: seq<string>)
    ensures var (summary, evidence, raised) := CleanSummary(f, all);
            SummarySalvagedAs(f, all, summary, evidence) && (raised <==> SummaryStripped(f, all))
  {
    var known := Retained(SummaryEvidence(f).GetOr([]), all);
    SummaryIsRead(f, all);
    if SummaryOrphaned(f, all) {
      FirstSortedIsLeast(all, 4);
    }
  }

  // ----- Nothing is lost on the way out -----

  /** An id that validation reads as it is. */
  ghost predicate CleanId(id: string) {
    Trim(id) == id && id != "" && Acceptable(id, 120)
  }

  ghost predicate CleanIds(ids: seq<string>) {
    forall id <- ids :: CleanId(id)
  }

  ghost predicate CleanCandidates(candidates: seq<CandidateEvidence>) {
    forall c <- candidates :: CleanIds(c.evidenceIds)
  }

  lemma {:induction false} UnionStaysClean(seen: seq<string>, more: seq<string>)
    requires CleanIds(seen) && CleanIds(more)
    ensures CleanIds(Union(seen, more))
    decreases |more|
  {
    if more != [] {
      var next := if more[0] in seen then seen else seen + [more[0]];
      forall id <- next ensures CleanId(id) {
        assert id in seen || (id == more[0] && id in more);
      }
      forall id <- more[1..] ensures CleanId(id) {
        assert id in more;
      }
      UnionStaysClean(next, more[1..]);
    }
  }

  lemma {:induction false} EvidenceIsClean(candidates: seq<CandidateEvidence>)
    requires CleanCandidates(candidates)
    ensures forall id <- ById(candidates) :: CleanIds(ById(candidates)[id])
    ensures CleanIds(AllEvidence(candidates))
  {
    if candidates != [] {
      var before, last := candidates[..|candidates| - 1], candidates[|candidates| - 1];
      EvidenceIsClean(before);
      UnionStaysClean(AllEvidence(before), last.evidenceIds);
    }
  }

  lemma TextsAreClean(f: Fields, key: string, items: nat, chars: nat)
    ensures CleanList(TextsOf(f, key, items, chars), items, chars)
  {
    ListsAreRead(f, key, items, chars);
    if StringList(f, key, items, chars).Some? {
      ListIsClean(f, key, items, chars);
    }
  }

  lemma KnownIsClean(cited: seq<string>, allowed: seq<string>, items: nat, chars: nat)
    requires CleanList(cited, items, chars)
    ensures CleanList(Known(cited, allowed), items, chars) && Within(Known(cited, allowed), allowed)
  {
    KnownIff(cited, allowed);
    KnownAreBoth(cited, allowed);
  }

  lemma {:induction false} KnownAreBoth(cited: seq<string>, allowed: seq<string>)
    ensures forall id <- Known(cited, allowed) :: id in cited && id in allowed
  {
    if cited != [] {
      KnownAreBoth(cited[1..], allowed);
    }
  }

  lemma LeastIsClean(ids: seq<string>, n: nat, out: seq<string>)
    requires LeastOf(ids, n, out) && CleanIds(ids)
    ensures CleanList(out, n, 120) && Within(out, ids)
  {
    var rest: seq<string> :| multiset(out + rest) == multiset(ids) && forall o <- out, r <- rest :: StringBefore(o, r);
    forall o <- out ensures o in ids {
      assert o in multiset(out + rest);
    }
  }

  lemma KeptIsWellFormed(byId: Evidence, rec: Json, x: AiRankItem)
    requires Judgable(byId, rec) && SalvagedAs(byId, rec, x) && CleanIds(byId[Field(rec, "app_id").n])
    ensures WellFormedItem(byId, x)
  {
    var allowed := byId[Field(rec, "app_id").n];
    TextsAreClean(rec.fields, "reasons", 6, 240);
    TextsAreClean(rec.fields, "cautions", 4, 240);
    if Orphaned(byId, rec) {
      LeastIsClean(allowed, 3, x.reasonEvidenceIds);
    } else {
      TextsAreClean(rec.fields, "reason_evidence_ids", 12, 120);
      KnownIsClean(Cited(rec), allowed, 12, 120);
      KnownIff(Cited(rec), allowed);
    }
  }

  lemma {:induction false} AllKeptAreWellFormed(byId: Evidence, recs: seq<Json>, items: seq<AiRankItem>)
    requires Keeps(byId, recs, items) && forall id <- byId :: CleanIds(byId[id])
    ensures forall x <- items :: WellFormedItem(byId, x)
  {
    if recs != [] {
      var before, last := recs[..|recs| - 1], recs[|recs| - 1];
      if Judgable(byId, last) {
        AllKeptAreWellFormed(byId, before, items[..|items| - 1]);
        KeptIsWellFormed(byId, last, items[|items| - 1]);
        assert items == items[..|items| - 1] + [items[|items| - 1]];
      } else {
        AllKeptAreWellFormed(byId, before, items);
      }
    }
  }

  lemma {:induction false} ContainedInPrefix(s: string, n: nat, pattern: string)
    requires n <= |s| && Contains(s[..n], pattern)
    ensures Contains(s, pattern)
  {
    if !(pattern <= s[..n]) {
      assert s[..n][1..] == s[1..][..n - 1];
      ContainedInPrefix(s[1..], n - 1, pattern);
    }
  }

  lemma PrefixIsNoMarkup(s: string, n: nat)
    requires n <= |s| && !LooksLikeHtmlOrUrl(s)
    ensures !LooksLikeHtmlOrUrl(s[..n])
  {
    assert Lower(s[..n]) == Lower(s)[..n];
    forall pattern | Contains(Lower(s[..n]), pattern) ensures Contains(Lower(s), pattern) {
      ContainedInPrefix(Lower(s), n, pattern);
    }
  }

  lemma {:induction false} TrimEndIsPrefix(s: string)
    ensures |TrimEnd(s)| <= |s| && TrimEnd(s) == s[..|TrimEnd(s)|]
    ensures s != "" && !IsWhitespace(s[0]) ==> TrimEnd(s) != ""
  {
    if s != "" && IsWhitespace(s[|s| - 1]) {
      TrimEndIsPrefix(s[..|s| - 1]);
    }
  }

  /** The start of a trimmed text, trimmed again, is still a start of it. */
  lemma CutIsAcceptable(s: string, n: nat)
    requires Trimmed(s) && n <= |s| && n <= 500 && !LooksLikeHtmlOrUrl(s)
    ensures var cut := Trim(s[..n]);
            && Trim(cut) == cut && Acceptable(cut, 500) && (cut == "" <==> s[..n] == "")
  {
    var cut := Trim(s[..n]);
    TrimTrims(s[..n]);
    TrimFixes(cut);
    TrimEndIsPrefix(s[..n]);
    assert TrimStart(s[..n]) == s[..n];
    assert s[..n][..|cut|] == s[..|cut|];
    PrefixIsNoMarkup(s, |cut|);
  }

  lemma SaidIsTrimmed(f: Fields)
    ensures Trimmed(SaidSummary(f))
  {
    if "summary" in f && f["summary"].Str? {
      TrimTrims(f["summary"].s);
    }
  }

  lemma SummaryTextIsWellFormed(f: Fields, all: seq<string>, summary: string, evidence: seq<string>)
    requires SummarySalvagedAs(f, all, summary, evidence)
    ensures Trim(Trim(summary)) == Trim(summary) && Acceptable(Trim(summary), 500)
    ensures Trim(summary) == "" <==> summary == ""
  {
    var said := SaidSummary(f);
    if summary == "" {
      EmptyIsFine();
    } else {
      SaidIsTrimmed(f);
      assert said[..|said|] == said;
      CutIsAcceptable(said, |summary|);
    }
  }

  lemma SummaryEvidenceIsWellFormed(f: Fields, all: seq<string>, summary: string, evidence: seq<string>)
    requires CleanIds(all) && SummarySalvagedAs(f, all, summary, evidence)
    ensures CleanList(evidence, 20, 120) && Within(evidence, all)
    ensures summary != "" ==> evidence != []
  {
    var cited := CitedForSummary(f);
    if LooksLikeHtmlOrUrl(SaidSummary(f)) {
      assert evidence == [];
    } else if SummaryOrphaned(f, all) {
      LeastIsClean(all, 4, evidence);
    } else {
      TextsAreClean(f, "summary_evidence_ids", 20, 120);
      KnownIsClean(cited, all, 20, 120);
      KnownIff(cited, all);
    }
  }

  // ----- The whole result -----

  lemma DraftIsSalvaged(value: Json, candidates: seq<CandidateEvidence>)
    requires Field(value, "recommendations").Arr?
    ensures var (draft, flag) := Cleaned(value, candidates);
            var byId, recs := ById(candidates), Field(value, "recommendations").items;
            && Keeps(byId, recs, draft.recommendations)
            && SummarySalvagedAs(value.fields, AllEvidence(candidates), draft.summary, draft.summaryEvidenceIds)
            && (flag <==> (exists rec <- recs :: Stripped(byId, rec))
                          || SummaryStripped(value.fields, AllEvidence(candidates)))
  {
    var byId, recs := ById(candidates), Field(value, "recommendations").items;
    var salvage := ItemSalvage(byId);
    forall rec
      ensures salvage(rec).0.Some? <==> Judgable(byId, rec)
      ensures Judgable(byId, rec) ==> SalvagedAs(byId, rec, salvage(rec).0.value)
      ensures salvage(rec).1 <==> Stripped(byId, rec)
    {
      EntryIsSalvaged(byId, rec);
    }
    EntriesAreSalvaged(byId, salvage, recs);
    SummaryIsSalvaged(value.fields, AllEvidence(candidates));
  }

  /** Validation trims the summary, so a draft and its trimmed form validate alike. */
  lemma TrimmedValidatesAlike(draft: AiRankResult, candidates: seq<CandidateEvidence>, maxItems: nat)
    requires Trim(Trim(draft.summary)) == Trim(draft.summary)
    ensures Validate(Encode(draft), candidates, maxItems)
         == Validate(Encode(draft.(summary := Trim(draft.summary))), candidates, maxItems)
  {
    EncodedFields(draft);
    EncodedFields(draft.(summary := Trim(draft.summary)));
  }

  /** What the draft becomes: itself with its summary trimmed, unless it is too long or names an id twice. */
  lemma DraftIsValidIff(draft: AiRankResult, candidates: seq<CandidateEvidence>, maxItems: nat)
    requires forall x <- draft.recommendations :: WellFormedItem(ById(candidates), x)
    requires Trim(Trim(draft.summary)) == Trim(draft.summary) && Acceptable(Trim(draft.summary), MAX_SUMMARY_CHARS)
    requires CleanList(draft.summaryEvidenceIds, MAX_SUMMARY_EVIDENCE, MAX_EVIDENCE_ID_CHARS)
    requires Within(draft.summaryEvidenceIds, AllEvidence(candidates))
    requires Trim(draft.summary) != "" ==> draft.summaryEvidenceIds != []
    ensures Validate(Encode(draft), candidates, maxItems) ==
              if |draft.recommendations| <= maxItems && DistinctIds(draft.recommendations) then
                Some(draft.(summary := Trim(draft.summary)))
              else None
  {
    var trimmed := draft.(summary := Trim(draft.summary));
    TrimmedValidatesAlike(draft, candidates, maxItems);
    if |draft.recommendations| <= maxItems && DistinctIds(draft.recommendations) {
      WellFormedSurvivesStorage(trimmed, candidates, maxItems);
    } else if Validate(Encode(draft), candidates, maxItems).Some? {
      ValidatedAreThemselves(draft.recommendations, candidates, maxItems, draft);
    }
  }

  lemma ValidatedAreThemselves(items: seq<AiRankItem>, candidates: seq<CandidateEvidence>, maxItems: nat,
                               draft: AiRankResult)
    requires items == draft.recommendations && forall x <- items :: WellFormedItem(ById(candidates), x)
    requires Validate(Encode(draft), candidates, maxItems).Some?
    ensures |items| <= maxItems && DistinctIds(items)
  {
    var byId, recs := ById(candidates), EncodeItems(items);
    EncodedFields(draft);
    PassedAreItems(ItemCheck(byId), recs);
    var passed := AllPass(ItemCheck(byId), recs).value;
    forall i | 0 <= i < |items| ensures items[i] == passed[i] {
      assert items[i] in items;
      WellFormedItemStays(byId, items[i]);
      assert ItemCheck(byId)(recs[i]) == Some(passed[i]);
    }
    assert items == passed;
  }

  lemma DraftStands(value: Json, candidates: seq<CandidateEvidence>, maxItems: nat)
    requires Field(value, "recommendations").Arr? && CleanCandidates(candidates)
    ensures var draft := Cleaned(value, candidates).0;
            Validate(Encode(draft), candidates, maxItems) ==
              if |draft.recommendations| <= maxItems && DistinctIds(draft.recommendations) then
                Some(draft.(summary := Trim(draft.summary)))
              else None
  {
    var byId, recs := ById(candidates), Field(value, "recommendations").items;
    var draft := Cleaned(value, candidates).0;
    DraftIsSalvaged(value, candidates);
    EvidenceIsClean(candidates);
    AllKeptAreWellFormed(byId, recs, draft.recommendations);
    SummaryTextIsWellFormed(value.fields, AllEvidence(candidates), draft.summary, draft.summaryEvidenceIds);
    SummaryEvidenceIsWellFormed(value.fields, AllEvidence(candidates), draft.summary, draft.summaryEvidenceIds);
    DraftIsValidIff(draft, candidates, maxItems);
  }

  /** A result that holds exactly what can be salvaged, and admits exactly if anything was changed. */
  ghost predicate SalvagedExactly(value: Json, candidates: seq<CandidateEvidence>, r: AiRankResult, flag: bool)
    requires Field(value, "recommendations").Arr?
  {
    var byId, recs := ById(candidates), Field(value, "recommendations").items;
    && Keeps(byId, recs, r.recommendations)
    && (exists said :: r.summary == Trim(said)
          && SummarySalvagedAs(value.fields, AllEvidence(candidates), said, r.summaryEvidenceIds))
    && (flag <==> (exists rec <- recs :: Stripped(byId, rec))
                  || SummaryStripped(value.fields, AllEvidence(candidates)))
  }

  /** These are what can be salvaged of the entries, and they make a result: few enough, and each of its own id. */
  ghost predicate Presentable(value: Json, candidates: seq<CandidateEvidence>, maxItems: nat, items: seq<AiRankItem>)
    requires Field(value, "recommendations").Arr?
  {
    var recs := Field(value, "recommendations").items;
    && Keeps(ById(candidates), recs, items)
    && (items == [] ==> recs == [])
    && |items| <= maxItems && DistinctIds(items)
  }

  /**
    The sanitizer exactly. While the candidates' own evidence ids are in order, it succeeds if and
    only if something can be salvaged, not too much and nothing twice, and then it keeps every
    entry with a candidate's id and scores in range, with the candidate's own evidence, its
    readable texts and the start of its summary; and the flag tells whether anything was changed.
   */
  lemma SanitizedExactly(value: Json, candidates: seq<CandidateEvidence>, maxItems: nat)
    requires Field(value, "recommendations").Arr? && CleanCandidates(candidates)
    ensures var s := Sanitize(value, candidates, maxItems);
            && (s.Some? ==> SalvagedExactly(value, candidates, s.value.0, s.value.1))
            && (s.Some? <==> exists items :: Presentable(value, candidates, maxItems, items))
  {
    var s, draft := Sanitize(value, candidates, maxItems), Cleaned(value, candidates).0;
    DraftIsSalvaged(value, candidates);
    DraftStands(value, candidates, maxItems);
    if s.Some? {
      assert Presentable(value, candidates, maxItems, draft.recommendations);
    }
    if items :| Presentable(value, candidates, maxItems, items) {
      KeptIdsAgree(ById(candidates), Field(value, "recommendations").items, items, draft.recommendations);
    }
  }

  // ----- The last resort -----

  /** An entry's id and scores alone. */
  ghost function Bare(rec: Json): AiRankItem
    requires exists byId :: Judgable(byId, rec)
  {
    AiRankItem(Field(rec, "app_id").n, AsF64(Field(rec, "fit_score")).value, AsF64(Field(rec, "confidence")).value,
               [], [], [])
  }

  ghost predicate AllBare(byId: Evidence, recs: seq<Json>, items: seq<AiRankItem>) {
    |items| == |recs| && forall i | 0 <= i < |recs| :: Judgable(byId, recs[i]) && items[i] == Bare(recs[i])
  }

  lemma NothingIsWritten(f: Fields, key: string, items: nat, chars: nat)
    requires key in f && f[key] == Arr([])
    ensures StringList(f, key, items, chars) == RootStringList(f, key, items, chars) == Some([])
  {
  }

  lemma BareItemIsValidIff(byId: Evidence, rec: Json)
    ensures ValidItem(byId, BareItem(rec)).Some? <==> Judgable(byId, rec)
    ensures Judgable(byId, rec) ==> ValidItem(byId, BareItem(rec)) == Some(Bare(rec))
  {
    var f := BareItem(rec).fields;
    assert f["app_id"] == Field(rec, "app_id") && f["fit_score"] == Field(rec, "fit_score");
    assert f["confidence"] == Field(rec, "confidence");
    NothingIsWritten(f, "reasons", 6, 240);
    NothingIsWritten(f, "cautions", 4, 240);
    NothingIsWritten(f, "reason_evidence_ids", 12, 120);
    JudgableIsRead(byId, BareItem(rec));
    assert Judgable(byId, BareItem(rec)) <==> Judgable(byId, rec);
  }

  ghost predicate Rankable(byId: Evidence, recs: seq<Json>, maxItems: nat, items: seq<AiRankItem>) {
    AllBare(byId, recs, items) && DistinctIds(items) && |recs| <= maxItems
  }

  lemma AllPassIff(check: Check, recs: seq<Json>, items: seq<AiRankItem>)
    ensures AllPass(check, recs) == Some(items) <==> Elementwise(check, recs, items) && DistinctIds(items)
  {
    if Elementwise(check, recs, items) && DistinctIds(items) {
      ItemsPass(check, recs, items);
    }
    if AllPass(check, recs).Some? {
      PassedAreItems(check, recs);
    }
  }

  lemma BareItemsIff(byId: Evidence, recs: seq<Json>, items: seq<AiRankItem>)
    ensures Elementwise(ItemCheck(byId), Field(BareRanking(recs), "recommendations").items, items) <==>
              AllBare(byId, recs, items)
  {
    var bare, check := Field(BareRanking(recs), "recommendations").items, ItemCheck(byId);
    forall i | 0 <= i < |recs|
      ensures check(bare[i]).Some? <==> Judgable(byId, recs[i])
      ensures Judgable(byId, recs[i]) ==> check(bare[i]) == Some(Bare(recs[i]))
    {
      BareItemIsValidIff(byId, recs[i]);
    }
  }

  lemma BareRankingIsValidIff(recs: seq<Json>, candidates: seq<CandidateEvidence>, maxItems: nat,
                              items: seq<AiRankItem>)
    ensures Validate(BareRanking(recs), candidates, maxItems) == Some(AiRankResult(items, "", [])) <==>
              Rankable(ById(candidates), recs, maxItems, items)
    ensures var v := Validate(BareRanking(recs), candidates, maxItems);
            v.Some? ==> v.value == AiRankResult(v.value.recommendations, "", [])
  {
    var f := BareRanking(recs).fields;
    NothingIsWritten(f, "summary_evidence_ids", 20, 120);
    EmptyIsFine();
    assert Summary(f) == "" && SummaryEvidence(f) == Some([]);
    BareItemsIff(ById(candidates), recs, items);
    AllPassIff(ItemCheck(ById(candidates)), Field(BareRanking(recs), "recommendations").items, items);
  }

  /**
    What comes through degradation: the strict result untouched, or else the sanitized one with
    its flag, or else, if every entry names a candidate of its own with scores in range, the bare
    ranking, and otherwise nothing.
   */
  lemma RankingIsTheLastResort(value: Json, candidates: seq<CandidateEvidence>, maxItems: nat)
    ensures var d, strict, s := Degrade(value, candidates, maxItems), Validate(value, candidates, maxItems),
                                Sanitize(value, candidates, maxItems);
            && (strict.Some? ==> d == Some((strict.value, Untouched)))
            && (strict.None? && s.Some? ==>
                  d.Some? && d.value.0 == s.value.0 && d.value.1 == if s.value.1 then WasSanitized else Untouched)
            && (strict.None? && s.None? ==>
                  && (d.Some? ==>
                        d.value.1 == RankingOnly && d.value.0.summary == "" && d.value.0.summaryEvidenceIds == [])
                  && forall items ::
                       d.Some? && d.value.0.recommendations == items <==>
                         Field(value, "recommendations").Arr?
                         && Rankable(ById(candidates), Field(value, "recommendations").items, maxItems, items))
  {
    if Field(value, "recommendations").Arr? {
      forall items {
        BareRankingIsValidIff(Field(value, "recommendations").items, candidates, maxItems, items);
      }
    }
  }
}
