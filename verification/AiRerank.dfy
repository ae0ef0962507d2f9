/** Re-ordering a page of results by a validated model opinion. */
module AiReordering {
  import opened Outcomes
  import opened MachineInts
  import opened Reals
  import opened JsonValues
  import opened RankValidation
  import Scoring
  import Sorting

  const U32_RANGE := 0x1_0000_0000

  /** The id of a result; a wider number is cut to 32 bits. */
  function AppIdOf(item: Json): Option<U32> {
    var raw := AsU64(Field(item, "app_id"));
    if raw.None? then None else Some(raw.value % U32_RANGE)
  }

  type Index = map<U32, Json>

  /** Results without an id drop out, and of several with one id the last stays. */
  function Indexed(items: seq<Json>): Index {
    if items == [] then map[]
    else
      var before, last := Indexed(items[..|items| - 1]), items[|items| - 1];
      if AppIdOf(last).None? then before else before[AppIdOf(last).value := last]
  }

  function ScoreOf(item: Json): real {
    AsF64(Field(item, "score")).GetOr(0.0)
  }

  function BaseOf(item: Json): real {
    AsF64(Field(Field(item, "components"), "personalized_score")).GetOr(ScoreOf(item))
  }

  function Blended(item: Json, opinion: AiRankItem): real {
    Scoring.BlendAi(BaseOf(item), Some(Scoring.AiAdjustment(opinion.fitScore, opinion.confidence)))
  }

  function Texts(v: Json): seq<Json> {
    if v.Arr? then v.items else []
  }

  function WithCautions(f: Fields, cautions: seq<string>): Fields {
    if cautions == [] then f else f["cautions" := Arr(Texts(Get(f, "cautions")) + StringArray(cautions).items)]
  }

  function WithFinalScore(f: Fields, score: real): Fields {
    var components := Get(f, "components");
    if !components.Obj? then f
    else f["components" := Obj(components.fields["final_score" := Float(score)])]
  }

  /** A named result with the model's opinion written into it. */
  function Adjusted(item: Json, opinion: AiRankItem): Json {
    if !item.Obj? then item
    else
      var scored := item.fields["score" := Float(Blended(item, opinion))]
                               ["ai_fit" := Float(opinion.fitScore)]
                               ["ai_confidence" := Float(opinion.confidence)];
      var explained := if opinion.reasons == [] then scored else scored["ai_reasons" := StringArray(opinion.reasons)];
      Obj(WithFinalScore(WithCautions(explained, opinion.cautions), Blended(item, opinion)))
  }

  /** The results that the opinions name, in their order, and what is left over. */
  function PickNamed(byId: Index, opinions: seq<AiRankItem>): (seq<Json>, Index) {
    if opinions == [] then ([], byId)
    else
      var (named, left) := PickNamed(byId, opinions[..|opinions| - 1]);
      var last := opinions[|opinions| - 1];
      if last.appId !in left then (named, left)
      else (named + [Adjusted(left[last.appId], last)], left - {last.appId})
  }

  /** The order in which a hash map happens to yield its values. */
  type HashOrder = set<U32> -> seq<U32>

  ghost predicate Distinct<T>(s: seq<T>) {
    forall i, j :: 0 <= i < j < |s| ==> s[i] != s[j]
  }

  /** Every key once. */
  ghost predicate Lists(ids: seq<U32>, keys: set<U32>) {
    Distinct(ids) && forall id: U32 :: id in ids <==> id in keys
  }

  ghost predicate Enumerates(order: HashOrder) {
    forall keys :: Lists(order(keys), keys)
  }

  function Values(left: Index, ids: seq<U32>): seq<Json>
    requires forall id <- ids :: id in left
  {
    seq(|ids|, i requires 0 <= i < |ids| => left[ids[i]])
  }

  predicate ScoresFirst(a: Json, b: Json) {
    ScoreOf(a) >= ScoreOf(b)
  }

  function Leftovers(left: Index, order: HashOrder): seq<Json>
    requires Enumerates(order)
  {
    assert Lists(order(left.Keys), left.Keys);
    Sorting.Sort(ScoresFirst, Values(left, order(left.Keys)))
  }

  function Reordered(items: seq<Json>, opinions: seq<AiRankItem>, order: HashOrder): seq<Json>
    requires Enumerates(order)
  {
    var (named, left) := PickNamed(Indexed(items), opinions);
    named + Leftovers(left, order)
  }

  class ResultPage {
    var items: seq<Json>

    constructor (items: seq<Json>)
      ensures this.items == items
    {
      this.items := items;
    }

    method ApplyValidatedAiRank(validated: AiRankResult, order: HashOrder)
      requires Enumerates(order)
      modifies this
      ensures items == Reordered(old(items), validated.recommendations, order)
    {
      var byId: Index := map[];
      for i := 0 to |items|
        invariant items == old(items)
        invariant byId == Indexed(items[..i])
      {
        assert items[..i + 1][..i] == items[..i];
        var id := AppIdOf(items[i]);
        if id.Some? {
          byId := byId[id.value := items[i]];
        }
      }
      assert items[..|items|] == items;

      ghost var all := byId;
      var opinions := validated.recommendations;
      var reordered: seq<Json> := [];
      for i := 0 to |opinions|
        invariant (reordered, byId) == PickNamed(all, opinions[..i])
      {
        assert opinions[..i + 1][..i] == opinions[..i];
        var opinion := opinions[i];
        if opinion.appId !in byId {
          continue;
        }
        var item := byId[opinion.appId];
        byId := byId - {opinion.appId};
        reordered := reordered + [Adjusted(item, opinion)];
      }
      assert opinions[..|opinions|] == opinions;
      items := reordered + Leftovers(byId, order);
    }
  }

  // ----- Conservation -----

  ghost function IdsIn(items: seq<Json>): set<Option<U32>> {
    set item <- items :: AppIdOf(item)
  }

  /** Every result has an id and no two share one. */
  ghost predicate Identified(items: seq<Json>) {
    && (forall item <- items :: AppIdOf(item).Some?)
    && (forall i, j :: 0 <= i < j < |items| ==> AppIdOf(items[i]) != AppIdOf(items[j]))
  }

  ghost predicate IndexesItself(index: Index) {
    forall id <- index :: AppIdOf(index[id]) == Some(id)
  }

  lemma {:induction false} IndexedItems(items: seq<Json>)
    ensures IndexesItself(Indexed(items))
    ensures forall id <- Indexed(items) :: Indexed(items)[id] in items
    ensures forall item <- items :: AppIdOf(item).Some? ==> AppIdOf(item).value in Indexed(items)
  {
    if items != [] {
      var before, last := items[..|items| - 1], items[|items| - 1];
      IndexedItems(before);
      assert items == before + [last];
    }
  }

  lemma UnidentifiedBy(before: seq<Json>, last: Json, earlier: Json)
    requires AppIdOf(last).None? || (earlier in before && AppIdOf(earlier) == AppIdOf(last))
    ensures !Identified(before + [last])
  {
    var items := before + [last];
    assert items[|before|] == last && last in items;
    if AppIdOf(last).Some? {
      var i :| 0 <= i < |before| && before[i] == earlier;
      assert items[i] == earlier;
    }
  }

  lemma IndexGrows(before: seq<Json>, last: Json)
    ensures var index, id := Indexed(before), AppIdOf(last);
            |Indexed(before + [last])| == |index| + if id.None? || id.value in index then 0 else 1
  {
    assert (before + [last])[..|before|] == before;
    if AppIdOf(last).Some? {
      assert Indexed(before + [last]).Keys == Indexed(before).Keys + {AppIdOf(last).value};
    }
  }

  lemma {:induction false} IndexedSize(items: seq<Json>)
    ensures |Indexed(items)| <= |items|
    ensures |Indexed(items)| == |items| <==> Identified(items)
  {
    if items != [] {
      var before, last := items[..|items| - 1], items[|items| - 1];
      IndexedSize(before);
      IndexGrows(before, last);
      IndexedItems(before);
      assert items == before + [last];
      if AppIdOf(last).Some? && AppIdOf(last).value !in Indexed(before) {
        IdentifiedGrows(before, last);
      } else {
        UnidentifiedBy(before, last, if AppIdOf(last).None? then last else Indexed(before)[AppIdOf(last).value]);
      }
    }
  }

  lemma IdentifiedGrows(before: seq<Json>, last: Json)
    requires AppIdOf(last).Some? && forall item <- before :: AppIdOf(item) != AppIdOf(last)
    ensures Identified(before + [last]) <==> Identified(before)
  {
    var items := before + [last];
    if Identified(before) {
      forall i, j | 0 <= i < j < |items| ensures AppIdOf(items[i]) != AppIdOf(items[j]) {
        assert items[i] in before;
      }
    }
    if Identified(items) {
      forall i, j | 0 <= i < j < |before| ensures AppIdOf(before[i]) != AppIdOf(before[j]) {
        assert items[i] == before[i] && items[j] == before[j];
      }
      forall item <- before ensures AppIdOf(item).Some? {
        assert item in items;
      }
    }
  }

  lemma LastTouches(f: Fields, cautions: seq<string>, score: real, key: string)
    requires key != "cautions" && key != "components"
    ensures Get(WithFinalScore(WithCautions(f, cautions), score), key) == Get(f, key)
  {
  }

  /** Adjusting touches only the fields that carry the opinion. */
  lemma AdjustingIsConfined(item: Json, opinion: AiRankItem, key: string)
    requires key !in ["score", "ai_fit", "ai_confidence", "ai_reasons", "cautions", "components"]
    ensures Field(Adjusted(item, opinion), key) == Field(item, key)
  {
  }

  lemma AdjustedKeepsId(item: Json, opinion: AiRankItem)
    ensures AppIdOf(Adjusted(item, opinion)) == AppIdOf(item)
  {
    AdjustingIsConfined(item, opinion, "app_id");
  }

  lemma AdjustedScore(item: Json, opinion: AiRankItem)
    requires item.Obj?
    ensures ScoreOf(Adjusted(item, opinion)) == Blended(item, opinion)
  {
    var score := Blended(item, opinion);
    var scored := item.fields["score" := Float(score)]
                             ["ai_fit" := Float(opinion.fitScore)]
                             ["ai_confidence" := Float(opinion.confidence)];
    var explained := if opinion.reasons == [] then scored else scored["ai_reasons" := StringArray(opinion.reasons)];
    assert Get(explained, "score") == Float(score);
    LastTouches(explained, opinion.cautions, score, "score");
  }

  /** The opinions that name a result, each result at its first mention. */
  function Naming(keys: set<U32>, opinions: seq<AiRankItem>): seq<AiRankItem> {
    if opinions == [] then []
    else
      var before, last := Naming(keys, opinions[..|opinions| - 1]), opinions[|opinions| - 1];
      if last.appId !in keys || last.appId in IdsOf(before) then before else before + [last]
  }

  function IdsOf(opinions: seq<AiRankItem>): set<U32> {
    set o <- opinions :: o.appId
  }

  lemma {:induction false} PickedAreNamed(byId: Index, opinions: seq<AiRankItem>)
    ensures var (named, left) := PickNamed(byId, opinions);
            Picked(byId, Naming(byId.Keys, opinions), named, left)
  {
    if opinions != [] {
      var last := opinions[|opinions| - 1];
      var before := Naming(byId.Keys, opinions[..|opinions| - 1]);
      PickedAreNamed(byId, opinions[..|opinions| - 1]);
      if last.appId in byId && last.appId !in IdsOf(before) {
        assert IdsOf(before + [last]) == IdsOf(before) + {last.appId};
        forall j | 0 <= j < |before| ensures before[j].appId != last.appId {
          assert before[j] in before;
        }
      }
    }
  }

  lemma {:induction false} CountedOnce<T>(s: seq<T>, x: T)
    requires Distinct(s)
    ensures multiset(s)[x] <= 1
  {
    if s != [] {
      var before, last := s[..|s| - 1], s[|s| - 1];
      assert s == before + [last];
      CountedOnce(before, x);
      assert last !in before;
    }
  }

  lemma PermutedStaysDistinct<T>(s: seq<T>, t: seq<T>)
    requires multiset(s) == multiset(t) && Distinct(t)
    ensures Distinct(s)
  {
    forall i, j | 0 <= i < j < |s| ensures s[i] != s[j] {
      if s[i] == s[j] {
        assert s == s[..j] + [s[j]] + s[j + 1..];
        assert s[..j][i] == s[j];
        assert multiset(s)[s[j]] >= 2;
        CountedOnce(t, s[j]);
      }
    }
  }

  lemma {:induction false} ListsAll(ids: seq<U32>, keys: set<U32>)
    requires Lists(ids, keys)
    ensures |ids| == |keys|
    decreases |ids|
  {
    if ids == [] {
      assert forall id <- keys :: id in ids;
    } else {
      var before, last := ids[..|ids| - 1], ids[|ids| - 1];
      assert ids == before + [last];
      forall id: U32 ensures id in before <==> id in keys - {last} {
        assert id in ids <==> id in keys;
      }
      ListsAll(before, keys - {last});
    }
  }

  lemma ScoresFirstIsPreorder()
    ensures Sorting.Preorder(ScoresFirst)
  {
  }

  /** The leftovers are exactly the values of the index, each once, by falling score. */
  lemma LeftoversAreSorted(left: Index, order: HashOrder)
    requires Enumerates(order) && IndexesItself(left)
    ensures SortedValues(left, Leftovers(left, order))
  {
    var ids := order(left.Keys);
    assert Lists(ids, left.Keys);
    ListsAll(ids, left.Keys);
    var values := Values(left, ids);
    var rest := Leftovers(left, order);
    Sorting.SortKeeps(ScoresFirst, values);
    ScoresFirstIsPreorder();
    Sorting.SortOrders(ScoresFirst, values);
    forall i, j | 0 <= i < j < |values| ensures values[i] != values[j] {
      assert AppIdOf(values[i]) == Some(ids[i]) && AppIdOf(values[j]) == Some(ids[j]);
    }
    PermutedStaysDistinct(rest, values);
    forall item <- rest
      ensures AppIdOf(item).Some? && AppIdOf(item).value in left && left[AppIdOf(item).value] == item
    {
      assert item in multiset(rest);
      var i :| 0 <= i < |values| && values[i] == item;
      assert ids[i] in left;
    }
    forall id <- left ensures left[id] in rest {
      assert id in ids;
      var i :| 0 <= i < |ids| && ids[i] == id;
      assert values[i] in multiset(values);
      assert left[id] in multiset(rest);
    }
  }

  ghost predicate NamedFirst(items: seq<Json>, naming: seq<AiRankItem>, out: seq<Json>) {
    |naming| <= |out| && forall k | 0 <= k < |naming| :: NamedBy(items, naming[k], out[k])
  }

  /** The result is one of the items, adjusted by the opinion that names it. */
  ghost predicate NamedBy(items: seq<Json>, opinion: AiRankItem, result: Json) {
    exists item <- items ::
      AppIdOf(item) == AppIdOf(result) == Some(opinion.appId) && result == Adjusted(item, opinion)
  }

  ghost predicate RestByScore(items: seq<Json>, n: nat, out: seq<Json>) {
    && (forall k | n <= k < |out| :: out[k] in items)
    && (forall j, k :: n <= j < k < |out| ==> ScoreOf(out[j]) >= ScoreOf(out[k]))
  }

  lemma NamedComeFirst(items: seq<Json>, naming: seq<AiRankItem>, named: seq<Json>, rest: seq<Json>)
    requires |named| == |naming|
    requires forall k | 0 <= k < |naming| ::
               && naming[k].appId in Indexed(items)
               && named[k] == Adjusted(Indexed(items)[naming[k].appId], naming[k])
    ensures NamedFirst(items, naming, named + rest)
  {
    IndexedItems(items);
    var out := named + rest;
    forall k | 0 <= k < |naming| ensures NamedBy(items, naming[k], out[k]) {
      var item := Indexed(items)[naming[k].appId];
      assert out[k] == named[k];
      AdjustedKeepsId(item, naming[k]);
      assert item in items;
    }
  }

  lemma RestFollows(items: seq<Json>, named: seq<Json>, rest: seq<Json>)
    requires forall item <- rest :: item in items
    requires Sorting.Ordered(ScoresFirst, rest)
    ensures RestByScore(items, |named|, named + rest)
  {
    var out, n := named + rest, |named|;
    forall k | n <= k < |out| ensures out[k] in items {
      assert out[k] == rest[k - n];
    }
    forall j, k | n <= j < k < |out| ensures ScoreOf(out[j]) >= ScoreOf(out[k]) {
      assert ScoresFirst(rest[j - n], rest[k - n]);
    }
  }

  /**
    The opinions' results come first in their order, each adjusted by its own opinion; the
    rest follow unchanged by falling score, whatever order the hash map yields; every id of
    the page is there, once.
   */
  lemma ReorderingConservesIds(items: seq<Json>, opinions: seq<AiRankItem>, order: HashOrder)
    requires Enumerates(order)
    ensures var out := Reordered(items, opinions, order);
            var naming := Naming(Indexed(items).Keys, opinions);
            && NamedFirst(items, naming, out)
            && RestByScore(items, |naming|, out)
            && Identified(out)
            && SameIdsIn(out, items)
            && |out| == |Indexed(items)|
  {
    var byId := Indexed(items);
    var naming := Naming(byId.Keys, opinions);
    var (named, left) := PickNamed(byId, opinions);
    IndexedItems(items);
    PickedAreNamed(byId, opinions);
    LeftoversAreSorted(left, order);
    PiecesConserve(items, naming, named, left, Leftovers(left, order));
  }

  /** What picking leaves: the named results, adjusted, and the rest of the index. */
  ghost predicate Picked(byId: Index, naming: seq<AiRankItem>, named: seq<Json>, left: Index) {
    && |named| == |naming|
    && left == byId - IdsOf(naming)
    && (forall k | 0 <= k < |naming| ::
          naming[k].appId in byId && named[k] == Adjusted(byId[naming[k].appId], naming[k]))
    && (forall j, k :: 0 <= j < k < |naming| ==> naming[j].appId != naming[k].appId)
  }

  /** The values of the index, each once, by falling score. */
  ghost predicate SortedValues(left: Index, rest: seq<Json>) {
    && |rest| == |left|
    && (forall item <- rest :: AppIdOf(item).Some? && AppIdOf(item).value in left && left[AppIdOf(item).value] == item)
    && (forall id <- left :: left[id] in rest)
    && Distinct(rest)
    && Sorting.Ordered(ScoresFirst, rest)
  }

  ghost predicate SameIdsIn(out: seq<Json>, items: seq<Json>) {
    forall id: U32 :: Some(id) in IdsIn(out) <==> Some(id) in IdsIn(items)
  }

  lemma PiecesConserve(items: seq<Json>, naming: seq<AiRankItem>, named: seq<Json>, left: Index, rest: seq<Json>)
    requires Picked(Indexed(items), naming, named, left) && SortedValues(left, rest)
    ensures NamedFirst(items, naming, named + rest)
    ensures RestByScore(items, |naming|, named + rest)
    ensures Identified(named + rest)
    ensures SameIdsIn(named + rest, items)
    ensures |named + rest| == |Indexed(items)|
  {
    var byId := Indexed(items);
    IndexedItems(items);
    NamedComeFirst(items, naming, named, rest);
    RestFollows(items, named, rest);
    forall k | 0 <= k < |naming| ensures AppIdOf(named[k]) == Some(naming[k].appId) {
      AdjustedKeepsId(byId[naming[k].appId], naming[k]);
    }
    OutIsIdentified(byId, naming, named, left, rest);
    SameIds(items, byId, naming, named, left, rest);
    NamedAndLeft(byId, naming, left);
  }

  lemma OutIsIdentified(byId: Index, naming: seq<AiRankItem>, named: seq<Json>, left: Index, rest: seq<Json>)
    requires |named| == |naming| && left == byId - IdsOf(naming)
    requires forall k | 0 <= k < |naming| :: AppIdOf(named[k]) == Some(naming[k].appId)
    requires forall j, k :: 0 <= j < k < |naming| ==> naming[j].appId != naming[k].appId
    requires forall item <- rest ::
               AppIdOf(item).Some? && AppIdOf(item).value in left && left[AppIdOf(item).value] == item
    requires Distinct(rest)
    ensures Identified(named + rest)
  {
    var out := named + rest;
    forall i, j | 0 <= i < j < |out| ensures AppIdOf(out[i]) != AppIdOf(out[j]) {
      if i < |named| <= j {
        assert out[j] == rest[j - |named|] && out[j] in rest;
        assert naming[i] in naming;
      } else if |named| <= i {
        assert out[i] == rest[i - |named|] && out[j] == rest[j - |named|];
        assert out[i] in rest && out[j] in rest;
      }
    }
    forall item <- out ensures AppIdOf(item).Some? {
      var i :| 0 <= i < |out| && out[i] == item;
      if i >= |named| {
        assert out[i] == rest[i - |named|];
      }
    }
  }

  lemma SameIds(items: seq<Json>, byId: Index, naming: seq<AiRankItem>, named: seq<Json>, left: Index, rest: seq<Json>)
    requires byId == Indexed(items) && left == byId - IdsOf(naming) && |named| == |naming|
    requires forall k | 0 <= k < |naming| :: naming[k].appId in byId && AppIdOf(named[k]) == Some(naming[k].appId)
    requires forall item <- rest ::
               AppIdOf(item).Some? && AppIdOf(item).value in left && left[AppIdOf(item).value] == item
    requires forall id <- left :: left[id] in rest
    ensures SameIdsIn(named + rest, items)
  {
    IndexedItems(items);
    var out := named + rest;
    forall id: U32 ensures Some(id) in IdsIn(items) <==> id in byId {
      if id in byId {
        assert AppIdOf(byId[id]) == Some(id);
      }
    }
    forall id: U32 ensures Some(id) in IdsIn(out) <==> id in byId {
      if id in left {
        assert left[id] in out && AppIdOf(left[id]) == Some(id);
      } else if id in byId {
        var o :| o in naming && o.appId == id;
        var k :| 0 <= k < |naming| && naming[k] == o;
        assert out[k] == named[k] && out[k] in out;
      }
    }
  }

  lemma NamedAndLeft(byId: Index, naming: seq<AiRankItem>, left: Index)
    requires left == byId - IdsOf(naming)
    requires forall k | 0 <= k < |naming| :: naming[k].appId in byId
    requires forall j, k :: 0 <= j < k < |naming| ==> naming[j].appId != naming[k].appId
    ensures |naming| + |left| == |byId|
  {
    DistinctIdsCount(naming);
    assert IdsOf(naming) <= byId.Keys by {
      forall o <- naming ensures o.appId in byId {
        var k :| 0 <= k < |naming| && naming[k] == o;
      }
    }
    assert left.Keys == byId.Keys - IdsOf(naming);
    assert |left.Keys| == |byId.Keys| - |IdsOf(naming)|;
  }

  lemma {:induction false} DistinctIdsCount(naming: seq<AiRankItem>)
    requires forall j, k :: 0 <= j < k < |naming| ==> naming[j].appId != naming[k].appId
    ensures |IdsOf(naming)| == |naming|
  {
    if naming != [] {
      var before, last := naming[..|naming| - 1], naming[|naming| - 1];
      assert naming == before + [last];
      DistinctIdsCount(before);
      assert IdsOf(naming) == IdsOf(before) + {last.appId};
      assert last.appId !in IdsOf(before);
    }
  }

  /** No result is lost exactly when each has an id of its own. */
  lemma NothingIsLostIff(items: seq<Json>, opinions: seq<AiRankItem>, order: HashOrder)
    requires Enumerates(order)
    ensures |Reordered(items, opinions, order)| == |items| <==> Identified(items)
  {
    ReorderingConservesIds(items, opinions, order);
    IndexedSize(items);
  }

  /** A re-scored result stays within 0.15 times the confidence of its clamped base, between base and fit. */
  lemma ReScoringIsBounded(item: Json, opinion: AiRankItem)
    requires AppIdOf(item).Some?
    ensures var base, fit, score := Unit(BaseOf(item)), Unit(opinion.fitScore), ScoreOf(Adjusted(item, opinion));
            && Abs(score - base) <= 0.15 * Unit(opinion.confidence)
            && MinReal(base, fit) <= score <= MaxReal(base, fit)
  {
    AdjustedScore(item, opinion);
    Scoring.AiBlendIsBounded(BaseOf(item), Scoring.AiAdjustment(opinion.fitScore, opinion.confidence));
  }

  // ----- What an opinion writes -----

  /** A number at one of two places, or zero. */
  ghost function OldScore(item: Json): real {
    var personalized := Field(Field(item, "components"), "personalized_score");
    if personalized.Int? || personalized.Float? then AsF64(personalized).value
    else if Field(item, "score").Int? || Field(item, "score").Float? then AsF64(Field(item, "score")).value
    else 0.0
  }

  ghost function Shifted(base: real, fit: real, confidence: real): real {
    base + 0.15 * (confidence * (fit - base))
  }

  /** The old score, moved towards the opinion's fit by 0.15 times its confidence. */
  ghost function NewScore(item: Json, opinion: AiRankItem): real {
    Shifted(Unit(OldScore(item)), Unit(opinion.fitScore), Unit(opinion.confidence))
  }

  ghost function WithTexts(present: Json, texts: seq<string>): seq<Json> {
    (if present.Arr? then present.items else []) + StringArray(texts).items
  }

  /** What a field other than the components becomes. */
  ghost function Opinionated(f: Fields, score: real, opinion: AiRankItem, key: string): Json {
    if key == "score" then Float(score)
    else if key == "ai_fit" then Float(opinion.fitScore)
    else if key == "ai_confidence" then Float(opinion.confidence)
    else if key == "ai_reasons" && opinion.reasons != [] then StringArray(opinion.reasons)
    else if key == "cautions" && opinion.cautions != [] then Arr(WithTexts(Get(f, "cautions"), opinion.cautions))
    else Get(f, key)
  }

  /** Exactly this opinion is in the fields: score, fit, confidence, texts, and the components' final score. */
  ghost predicate WrittenInto(f: Fields, score: real, opinion: AiRankItem, g: Fields) {
    && (forall key | key != "components" :: Get(g, key) == Opinionated(f, score, opinion, key))
    && var before, after := Get(f, "components"), Get(g, "components");
       if before.Obj? then
         after.Obj?
         && forall key ::
              Get(after.fields, key) == if key == "final_score" then Float(score) else Get(before.fields, key)
       else after == before
  }

  ghost predicate Written(item: Json, opinion: AiRankItem, result: Json) {
    item.Obj? && result.Obj? && WrittenInto(item.fields, NewScore(item, opinion), opinion, result.fields)
  }

  lemma ShiftedBlend(base: real, fit: real, confidence: real)
    requires 0.0 <= base <= 1.0 && 0.0 <= fit <= 1.0 && 0.0 <= confidence <= 1.0
    ensures Scoring.Blend(base, fit, confidence) == Shifted(base, fit, confidence)
  {
    var shift := Mix(base, fit, confidence);
    assert shift == confidence * (fit - base);
  }

  lemma BlendedIsNewScore(item: Json, opinion: AiRankItem)
    ensures Blended(item, opinion) == NewScore(item, opinion)
  {
    var base, fit, confidence := Unit(OldScore(item)), Unit(opinion.fitScore), Unit(opinion.confidence);
    ShiftedBlend(base, fit, confidence);
    assert BaseOf(item) == OldScore(item);
  }

  /** The fields with a score and an opinion, in the order in which the code writes them. */
  ghost function Stamped(f: Fields, score: real, opinion: AiRankItem): Fields {
    var scored := f["score" := Float(score)]["ai_fit" := Float(opinion.fitScore)]
                   ["ai_confidence" := Float(opinion.confidence)];
    var explained := if opinion.reasons == [] then scored else scored["ai_reasons" := StringArray(opinion.reasons)];
    WithFinalScore(WithCautions(explained, opinion.cautions), score)
  }

  lemma CautionsAreAppended(f: Fields, cautions: seq<string>)
    ensures forall key :: Get(WithCautions(f, cautions), key) ==
              if key != "cautions" || cautions == [] then Get(f, key)
              else Arr(WithTexts(Get(f, "cautions"), cautions))
  {
  }

  lemma FinalScoreIsSet(f: Fields, score: real)
    ensures forall key | key != "components" :: Get(WithFinalScore(f, score), key) == Get(f, key)
    ensures var before, after := Get(f, "components"), Get(WithFinalScore(f, score), "components");
            if before.Obj? then after == Obj(before.fields["final_score" := Float(score)]) else after == before
  {
  }

  lemma StampedIsWritten(f: Fields, score: real, opinion: AiRankItem)
    ensures WrittenInto(f, score, opinion, Stamped(f, score, opinion))
  {
    var scored := f["score" := Float(score)]["ai_fit" := Float(opinion.fitScore)]
                   ["ai_confidence" := Float(opinion.confidence)];
    var explained := if opinion.reasons == [] then scored else scored["ai_reasons" := StringArray(opinion.reasons)];
    CautionsAreAppended(explained, opinion.cautions);
    FinalScoreIsSet(WithCautions(explained, opinion.cautions), score);
  }

  lemma AdjustedIsWritten(item: Json, opinion: AiRankItem)
    requires item.Obj?
    ensures Written(item, opinion, Adjusted(item, opinion))
  {
    BlendedIsNewScore(item, opinion);
    StampedIsWritten(item.fields, Blended(item, opinion), opinion);
    assert Adjusted(item, opinion) == Obj(Stamped(item.fields, Blended(item, opinion), opinion));
  }

  /** Each result that an opinion names stands at the opinion's place, with that opinion written into it. */
  lemma OpinionsAreWritten(items: seq<Json>, opinions: seq<AiRankItem>, order: HashOrder, k: nat)
    requires Enumerates(order) && k < |Naming(Indexed(items).Keys, opinions)|
    ensures var out, opinion := Reordered(items, opinions, order), Naming(Indexed(items).Keys, opinions)[k];
            k < |out| && exists item <- items :: AppIdOf(item) == Some(opinion.appId) && Written(item, opinion, out[k])
  {
    ReorderingConservesIds(items, opinions, order);
    var out, opinion := Reordered(items, opinions, order), Naming(Indexed(items).Keys, opinions)[k];
    assert NamedBy(items, opinion, out[k]);
    var item :| item in items && AppIdOf(item) == Some(opinion.appId) && out[k] == Adjusted(item, opinion);
    AdjustedIsWritten(item, opinion);
  }
}
