/**
  Diversity re-ranking: a greedy selection over the 200 most relevant items that trades
  relevance against the similarity to what is already selected. Scores are exact reals.
 */
module Mmr {
  import opened Outcomes
  import opened MachineInts
  import opened Reals
  import opened Scoring
  import Sorting
  import Text

  const MMR_WINDOW_SIZE := 200

  datatype Explanation = Explanation(reasons: seq<string>, cautions: seq<string>, evidenceIds: seq<string>)

  datatype RankedCandidate = RankedCandidate(
    appId: U32,
    name: string,
    dominantMode: Option<string>,
    recommendedMin: Option<U8>,
    recommendedMax: Option<U8>,
    score: ScoreBreakdown,
    explanation: Explanation,
    algorithmVersion: string)

  type Item = RankedCandidate

  /** How the re-ranking recognises early data: "early" in a reason, "confidence" in a caution. */
  const EARLY := "早期"
  const CONFIDENCE := "置信度"

  predicate EvidenceLow(c: Item) {
    Text.AnyContains(c.explanation.reasons, EARLY) || Text.AnyContains(c.explanation.cautions, CONFIDENCE)
  }

  function TagOverlap(a: U32, b: U32): real {
    0.0
  }

  function Similarity(a: Item, b: Item): real {
    if a.appId == b.appId then 1.0
    else
      var modeSame := if a.dominantMode.Some? && a.dominantMode == b.dominantMode then 0.45 else 0.0;
      var fitClose := 1.0 - Abs(a.score.friendFit - b.score.friendFit);
      Unit(modeSame + 0.35 * fitClose + 0.2 * TagOverlap(a.appId, b.appId))
  }

  /** More relevant first; ties by application id. */
  predicate Before(a: Item, b: Item) {
    || a.score.finalScore > b.score.finalScore
    || (a.score.finalScore == b.score.finalScore && a.appId <= b.appId)
  }

  function ByRelevance(items: seq<Item>): seq<Item> {
    Sorting.Sort(Before, items)
  }

  predicate Explores(selected: nat, exploreSlots: nat, c: Item) {
    selected < exploreSlots && c.score.friendFit > 0.55 && EvidenceLow(c)
  }

  /** The weight of relevance against diversity is `lambda` in the code. */
  function Value(tradeoff: real, penalty: real, bonus: bool, c: Item): real {
    tradeoff * c.score.finalScore - (1.0 - tradeoff) * penalty + if bonus then 0.02 else 0.0
  }

  // ----- The naive greedy selection: penalties recomputed from scratch every round -----

  function MaxSimilarity(selected: seq<Item>, c: Item): real {
    if selected == [] then 0.0
    else
      var last := |selected| - 1;
      MaxReal(MaxSimilarity(selected[..last], c), Similarity(selected[last], c))
  }

  function NaiveValue(tradeoff: real, exploreSlots: nat, selected: seq<Item>, c: Item): real {
    Value(tradeoff, MaxSimilarity(selected, c), Explores(|selected|, exploreSlots, c), c)
  }

  /** How much a candidate is worth after a selection. */
  type Valuation = (seq<Item>, Item) -> real

  function NaiveValuation(tradeoff: real, exploreSlots: nat): Valuation {
    (selected, c) => NaiveValue(tradeoff, exploreSlots, selected, c)
  }

  /** The first item of the highest value among remaining[..n]. */
  function Best(value: Valuation, selected: seq<Item>, remaining: seq<Item>, n: nat): (p: nat)
    requires 1 <= n <= |remaining|
    ensures p < n
    ensures forall i :: 0 <= i < n ==> value(selected, remaining[i]) <= value(selected, remaining[p])
    ensures forall i :: 0 <= i < p ==> value(selected, remaining[i]) < value(selected, remaining[p])
  {
    if n == 1 then 0
    else
      var p := Best(value, selected, remaining, n - 1);
      if value(selected, remaining[n - 1]) > value(selected, remaining[p]) then n - 1 else p
  }

  function Without<T>(s: seq<T>, p: nat): (r: seq<T>)
    requires p < |s|
    ensures |r| == |s| - 1
  {
    s[..p] + s[p + 1..]
  }

  /** The order in which `remaining` is selected after `selected`. */
  function Greedy(value: Valuation, selected: seq<Item>, remaining: seq<Item>): seq<Item>
    decreases |remaining|
  {
    if remaining == [] then []
    else
      var p := Best(value, selected, remaining, |remaining|);
      [remaining[p]] + Greedy(value, selected + [remaining[p]], Without(remaining, p))
  }

  function Window(items: seq<Item>): seq<Item> {
    var sorted := ByRelevance(items);
    if |sorted| > MMR_WINDOW_SIZE then sorted[..MMR_WINDOW_SIZE] else sorted
  }

  function Tail(items: seq<Item>): seq<Item> {
    var sorted := ByRelevance(items);
    if |sorted| > MMR_WINDOW_SIZE then sorted[MMR_WINDOW_SIZE..] else []
  }

  function NaiveRerank(items: seq<Item>, tradeoff: real, exploreSlots: nat): seq<Item> {
    if |items| <= 1 then items
    else Greedy(NaiveValuation(Unit(tradeoff), exploreSlots), [], Window(items)) + Tail(items)
  }

  // ----- The code: each item carries its penalty, raised by one comparison a round -----

  method MmrRerank(items: seq<Item>, tradeoff: real, exploreSlots: nat) returns (reranked: seq<Item>)
    ensures reranked == NaiveRerank(items, tradeoff, exploreSlots)
  {
    if |items| <= 1 {
      return items;
    }
    var window, tail := Window(items), Tail(items);
    var selected := SelectAll(window, Unit(tradeoff), exploreSlots);
    reranked := selected + tail;
  }

  method SelectAll(window: seq<Item>, tradeoff: real, exploreSlots: nat) returns (selected: seq<Item>)
    ensures selected == Greedy(NaiveValuation(tradeoff, exploreSlots), [], window)
  {
    ghost var value := NaiveValuation(tradeoff, exploreSlots);
    var remaining := Unpenalized(window);
    selected := [];
    while remaining != []
      invariant Weighted(selected, remaining)
      invariant selected + Greedy(value, selected, Items(remaining)) == Greedy(value, [], window)
      decreases |remaining|
    {
      var best := PickBest(tradeoff, exploreSlots, selected, remaining, value);
      var chosen := remaining[best].0;
      ItemsWithout(remaining, best);
      GreedyPeels(value, selected, Items(remaining), Greedy(value, [], window));
      remaining := RaisePenalties(chosen, selected, remaining[..best] + remaining[best + 1..]);
      selected := selected + [chosen];
    }
  }

  function Unpenalized(window: seq<Item>): (r: seq<(Item, real)>)
    ensures Items(r) == window && Weighted([], r)
  {
    seq(|window|, i requires 0 <= i < |window| => (window[i], 0.0))
  }

  lemma GreedyPeels(value: Valuation, selected: seq<Item>, remaining: seq<Item>, all: seq<Item>)
    requires remaining != [] && selected + Greedy(value, selected, remaining) == all
    ensures var p := Best(value, selected, remaining, |remaining|);
            selected + [remaining[p]] + Greedy(value, selected + [remaining[p]], Without(remaining, p)) == all
  {
  }

  lemma ItemsWithout(remaining: seq<(Item, real)>, p: nat)
    requires p < |remaining|
    ensures Items(remaining[..p] + remaining[p + 1..]) == Without(Items(remaining), p)
  {
  }

  ghost predicate Weighted(selected: seq<Item>, remaining: seq<(Item, real)>) {
    forall w <- remaining :: w.1 == MaxSimilarity(selected, w.0)
  }

  ghost function Items(weighted: seq<(Item, real)>): (r: seq<Item>)
    ensures |r| == |weighted|
  {
    seq(|weighted|, i requires 0 <= i < |weighted| => weighted[i].0)
  }

  /** The scan only needs to know the valuation by name. */
  ghost predicate Appraises(value: Valuation, tradeoff: real, exploreSlots: nat) {
    forall selected, c {:trigger NaiveValue(tradeoff, exploreSlots, selected, c)} ::
      value(selected, c) == NaiveValue(tradeoff, exploreSlots, selected, c)
  }

  method PickBest(tradeoff: real, exploreSlots: nat, selected: seq<Item>, remaining: seq<(Item, real)>,
                  ghost value: Valuation)
    returns (best: nat)
    requires remaining != [] && Appraises(value, tradeoff, exploreSlots)
    requires Weighted(selected, remaining)
    ensures best < |remaining|
    ensures best == Best(value, selected, Items(remaining), |remaining|)
  {
    best := 0;
    var bestValue: Option<real> := None;  // negative infinity
    for i := 0 to |remaining|
      invariant i == 0 ==> bestValue.None? && best == 0
      invariant i > 0 ==> best == Best(value, selected, Items(remaining), i)
      invariant i > 0 ==> bestValue == Some(value(selected, remaining[best].0))
    {
      var (candidate, penalty) := remaining[i];
      var mmr := Value(tradeoff, penalty, Explores(|selected|, exploreSlots, candidate), candidate);
      assert remaining[i] in remaining;
      assert mmr == NaiveValue(tradeoff, exploreSlots, selected, candidate) == value(selected, candidate);
      if bestValue.None? || mmr > bestValue.value {
        bestValue, best := Some(mmr), i;
      }
    }
  }

  method RaisePenalties(chosen: Item, ghost selected: seq<Item>, remaining: seq<(Item, real)>)
    returns (raised: seq<(Item, real)>)
    requires Weighted(selected, remaining)
    ensures Items(raised) == Items(remaining)
    ensures Weighted(selected + [chosen], raised)
  {
    raised := remaining;
    for i := 0 to |raised|
      invariant |raised| == |remaining|
      invariant forall k :: 0 <= k < |raised| ==> raised[k].0 == remaining[k].0
      invariant forall k :: i <= k < |raised| ==> raised[k] == remaining[k]
      invariant forall k :: 0 <= k < i ==> raised[k].1 == MaxSimilarity(selected + [chosen], raised[k].0)
    {
      var (candidate, penalty) := raised[i];
      assert (selected + [chosen])[..|selected|] == selected;
      raised := raised[i := (candidate, MaxReal(penalty, Similarity(chosen, candidate)))];
    }
  }
}

/** What the re-ranking promises. */
module MmrLaws {
  import opened Outcomes
  import opened MachineInts
  import opened Reals
  import opened Scoring
  import opened Mmr
  import Sorting

  lemma RelevanceIsAnOrder()
    ensures Sorting.Preorder(Before)
  {
  }

  // ----- Conservation -----

  lemma WithoutKeeps(s: seq<Item>, p: nat)
    requires p < |s|
    ensures multiset(Without(s, p)) + multiset{s[p]} == multiset(s)
  {
    assert s == s[..p] + [s[p]] + s[p + 1..];
  }

  lemma {:induction false} GreedyKeeps(value: Valuation, selected: seq<Item>, remaining: seq<Item>)
    ensures var out := Greedy(value, selected, remaining);
            |out| == |remaining| && multiset(out) == multiset(remaining)
    decreases |remaining|
  {
    if remaining != [] {
      var p := Best(value, selected, remaining, |remaining|);
      WithoutKeeps(remaining, p);
      GreedyKeeps(value, selected + [remaining[p]], Without(remaining, p));
    }
  }

  lemma WindowAndTail(items: seq<Item>)
    ensures Sorting.Ordered(Before, Window(items) + Tail(items))
    ensures Window(items) + Tail(items) == ByRelevance(items)
    ensures multiset(Window(items)) + multiset(Tail(items)) == multiset(items)
    ensures |Window(items)| + |Tail(items)| == |items|
    ensures |Window(items)| == if |items| > MMR_WINDOW_SIZE then MMR_WINDOW_SIZE else |items|
  {
    RelevanceIsAnOrder();
    Sorting.SortKeeps(Before, items);
    Sorting.SortOrders(Before, items);
    assert Window(items) + Tail(items) == ByRelevance(items);
    assert multiset(Window(items) + Tail(items)) == multiset(Window(items)) + multiset(Tail(items));
  }

  lemma RerankSplits(items: seq<Item>, tradeoff: real, explore: nat)
    ensures var head := Greedy(NaiveValuation(Unit(tradeoff), explore), [], Window(items));
            && NaiveRerank(items, tradeoff, explore) == head + Tail(items)
            && |head| == |Window(items)| && multiset(head) == multiset(Window(items))
  {
    GreedyKeeps(NaiveValuation(Unit(tradeoff), explore), [], Window(items));
    if |items| == 1 {
      assert items[1..] == [] && Sorting.Sort(Before, items[1..]) == [];
      assert items == [items[0]];
      assert Without(items, 0) == [];
    }
  }

  lemma SwapHead<T>(window: seq<T>, tail: seq<T>, head: seq<T>)
    requires |head| == |window| && multiset(head) == multiset(window)
    ensures multiset(head + tail) == multiset(window + tail)
    ensures forall j :: |head| <= j < |head| + |tail| ==> (head + tail)[j] == (window + tail)[j]
  {
  }

  /**
    The result is a rearrangement of the input, and from position 200 on it is the
    relevance-sorted list itself.
   */
  lemma RerankKeepsEverything(items: seq<Item>, tradeoff: real, explore: nat)
    ensures var out, sorted := NaiveRerank(items, tradeoff, explore), ByRelevance(items);
            && multiset(out) == multiset(items)
            && |out| == |sorted| == |items|
            && forall j :: 200 <= j < |items| ==> out[j] == sorted[j]
  {
    RerankSplits(items, tradeoff, explore);
    WindowAndTail(items);
    Sorting.SortKeeps(Before, items);
    SwapHead(Window(items), Tail(items), Greedy(NaiveValuation(Unit(tradeoff), explore), [], Window(items)));
  }

  lemma HeadComesFirst(window: seq<Item>, tail: seq<Item>, head: seq<Item>, i: nat, j: nat)
    requires Sorting.Ordered(Before, window + tail) && multiset(head) == multiset(window)
    requires i < |head| && j < |tail|
    ensures Before(head[i], tail[j])
  {
    assert head[i] in multiset(window);
    var k :| 0 <= k < |window| && window[k] == head[i];
    assert (window + tail)[k] == window[k] && (window + tail)[|window| + j] == tail[j];
  }

  /** Nothing in the tail is more relevant than anything in the window. */
  lemma TailIsLessRelevant(items: seq<Item>, tradeoff: real, explore: nat, i: nat, j: nat)
    requires i < 200 <= j < |items|
    ensures var out := NaiveRerank(items, tradeoff, explore);
            |out| == |items| && Before(out[i], out[j])
  {
    RerankSplits(items, tradeoff, explore);
    WindowAndTail(items);
    HeadComesFirst(Window(items), Tail(items), Greedy(NaiveValuation(Unit(tradeoff), explore), [], Window(items)), i,
                   j - MMR_WINDOW_SIZE);
  }

  // ----- The price of diversity -----

  ghost predicate DistinctIds(s: seq<Item>) {
    forall i, j :: 0 <= i < j < |s| ==> s[i].appId != s[j].appId
  }

  ghost predicate Apart(selected: seq<Item>, remaining: seq<Item>) {
    forall x, y :: x in selected && y in remaining ==> x.appId != y.appId
  }

  lemma {:induction false} PenaltyRange(selected: seq<Item>, c: Item)
    requires forall x <- selected :: x.appId != c.appId
    ensures 0.0 <= MaxSimilarity(selected, c) <= 0.8
  {
    if selected != [] {
      PenaltyRange(selected[..|selected| - 1], c);
    }
  }

  /** Relevance given up, weighted, when `chosen` stands before `other`. */
  ghost function Loss(tradeoff: real, chosen: Item, other: Item): real {
    tradeoff * (other.score.finalScore - chosen.score.finalScore)
  }

  ghost function LossBound(tradeoff: real, exploring: bool): real {
    0.8 * (1.0 - tradeoff) + if exploring then 0.02 else 0.0
  }

  lemma ValueLoss(tradeoff: real, chosen: Item, other: Item, p: real, q: real, bc: bool, bd: bool)
    requires 0.0 <= tradeoff <= 1.0 && 0.0 <= p && q <= 0.8
    requires Value(tradeoff, q, bd, other) <= Value(tradeoff, p, bc, chosen)
    ensures Loss(tradeoff, chosen, other) <= LossBound(tradeoff, bc)
  {
    ScaleMono(1.0 - tradeoff, q, 0.8);
    ScaleMono(1.0 - tradeoff, 0.0, p);
  }

  lemma PickLosesLittle(tradeoff: real, explore: nat, selected: seq<Item>, chosen: Item, other: Item)
    requires 0.0 <= tradeoff <= 1.0
    requires NaiveValue(tradeoff, explore, selected, other) <= NaiveValue(tradeoff, explore, selected, chosen)
    requires forall x <- selected :: x.appId != chosen.appId && x.appId != other.appId
    ensures Loss(tradeoff, chosen, other) <= LossBound(tradeoff, |selected| < explore)
  {
    PenaltyRange(selected, chosen);
    PenaltyRange(selected, other);
    ValueLoss(tradeoff, chosen, other, MaxSimilarity(selected, chosen), MaxSimilarity(selected, other),
              Explores(|selected|, explore, chosen), Explores(|selected|, explore, other));
  }

  lemma ApartAfterPick(selected: seq<Item>, remaining: seq<Item>, p: nat)
    requires p < |remaining| && DistinctIds(remaining) && Apart(selected, remaining)
    ensures DistinctIds(Without(remaining, p)) && Apart(selected + [remaining[p]], Without(remaining, p))
  {
    var rest := Without(remaining, p);
    forall i | 0 <= i < |rest| ensures rest[i] == remaining[if i < p then i else i + 1] {
    }
  }

  /** What is selected when position i of the greedy order is filled. */
  ghost function SelectedBefore(value: Valuation, selected: seq<Item>, remaining: seq<Item>, i: nat): seq<Item>
    requires i < |remaining|
    decreases i
  {
    if i == 0 then selected
    else
      var p := Best(value, selected, remaining, |remaining|);
      SelectedBefore(value, selected + [remaining[p]], Without(remaining, p), i - 1)
  }

  lemma FirstPick(value: Valuation, selected: seq<Item>, remaining: seq<Item>, j: nat)
    requires j < |remaining|
    ensures var out := Greedy(value, selected, remaining);
            && |out| == |remaining|
            && out[j] in remaining && out[0] in remaining
            && value(selected, out[j]) <= value(selected, out[0])
  {
    var out := Greedy(value, selected, remaining);
    GreedyKeeps(value, selected, remaining);
    assert out[j] in multiset(out) && out[0] in multiset(out);
    var q :| 0 <= q < |remaining| && remaining[q] == out[j];
    assert out[0] == remaining[Best(value, selected, remaining, |remaining|)];
  }

  /** After `sel`, the item at i was worth at least the one at j, and neither was selected before. */
  ghost predicate FairPick(value: Valuation, sel: seq<Item>, out: seq<Item>, i: nat, j: nat) {
    && i < |out| && j < |out|
    && value(sel, out[j]) <= value(sel, out[i])
    && forall x <- sel :: x.appId != out[i].appId && x.appId != out[j].appId
  }

  lemma FirstPickIsFair(value: Valuation, selected: seq<Item>, remaining: seq<Item>, j: nat)
    requires Apart(selected, remaining) && j < |remaining|
    ensures FairPick(value, selected, Greedy(value, selected, remaining), 0, j)
  {
    FirstPick(value, selected, remaining, j);
  }

  lemma LaterPickIsFair(value: Valuation, sel: seq<Item>, first: Item, rest: seq<Item>, i: nat, j: nat)
    requires 0 < i < j && FairPick(value, sel, rest, i - 1, j - 1)
    ensures FairPick(value, sel, [first] + rest, i, j)
  {
  }

  /**
    Position i of a greedy order was picked from the whole rest: whatever stands at j > i
    was a candidate then, worth no more, and nothing selected before shares their ids.
   */
  lemma {:induction false} PickedOverLater(value: Valuation, selected: seq<Item>, remaining: seq<Item>, i: nat, j: nat)
    requires DistinctIds(remaining) && Apart(selected, remaining)
    requires i < j < |remaining|
    ensures var sel := SelectedBefore(value, selected, remaining, i);
            |sel| == |selected| + i && FairPick(value, sel, Greedy(value, selected, remaining), i, j)
    decreases i
  {
    if i == 0 {
      FirstPickIsFair(value, selected, remaining, j);
    } else {
      var p := Best(value, selected, remaining, |remaining|);
      var next, left := selected + [remaining[p]], Without(remaining, p);
      ApartAfterPick(selected, remaining, p);
      PickedOverLater(value, next, left, i - 1, j - 1);
      LaterPickIsFair(value, SelectedBefore(value, next, left, i - 1), remaining[p], Greedy(value, next, left), i, j);
    }
  }

  lemma {:induction false} DistinctSurvives(items: seq<Item>, sorted: seq<Item>)
    requires DistinctIds(items) && multiset(items) == multiset(sorted)
    ensures DistinctIds(sorted)
  {
    forall i, j | 0 <= i < j < |sorted| ensures sorted[i].appId != sorted[j].appId {
      if sorted[i].appId == sorted[j].appId {
        assert sorted[i] in multiset(items) && sorted[j] in multiset(items);
        assert sorted[i] == sorted[j];
        TwiceInMultiset(sorted, i, j);
        OnceInMultiset(items, sorted[i]);
      }
    }
  }

  lemma TwiceInMultiset(s: seq<Item>, i: nat, j: nat)
    requires i < j < |s| && s[i] == s[j]
    ensures multiset(s)[s[i]] >= 2
  {
    assert s == s[..i] + [s[i]] + s[i + 1..j] + [s[j]] + s[j + 1..];
  }

  lemma {:induction false} OnceInMultiset(s: seq<Item>, x: Item)
    requires DistinctIds(s)
    ensures multiset(s)[x] <= 1
  {
    if s != [] {
      OnceInMultiset(s[1..], x);
      assert s == [s[0]] + s[1..];
      assert forall k :: 0 <= k < |s[1..]| ==> s[1..][k] == s[k + 1];
    }
  }

  /**
    Diversity costs a bounded amount of relevance: an item may stand before a more relevant
    one of the window only if tradeoff times the difference is within 0.8 * (1 - tradeoff), plus
    the 0.02 exploration bonus while exploration slots are open.
   */
  lemma RelevanceLossIsBounded(items: seq<Item>, tradeoff: real, explore: nat, i: nat, j: nat)
    requires DistinctIds(items)
    requires i < j < |items| && j < MMR_WINDOW_SIZE
    ensures var out := NaiveRerank(items, tradeoff, explore);
            |out| == |items| && Loss(Unit(tradeoff), out[i], out[j]) <= LossBound(Unit(tradeoff), i < explore)
  {
    var value, window := NaiveValuation(Unit(tradeoff), explore), Window(items);
    RerankSplits(items, tradeoff, explore);
    WindowAndTail(items);
    WindowIsDistinct(items);
    PickedOverLater(value, [], window, i, j);
    var head, sel := Greedy(value, [], window), SelectedBefore(value, [], window, i);
    PickLosesLittle(Unit(tradeoff), explore, sel, head[i], head[j]);
  }

  lemma WindowIsDistinct(items: seq<Item>)
    requires DistinctIds(items)
    ensures DistinctIds(Window(items))
  {
    WindowAndTail(items);
    Sorting.SortKeeps(Before, items);
    DistinctSurvives(items, ByRelevance(items));
    DistinctPrefix(Window(items), Tail(items));
  }

  lemma DistinctPrefix(head: seq<Item>, tail: seq<Item>)
    requires DistinctIds(head + tail)
    ensures DistinctIds(head)
  {
    assert forall k :: 0 <= k < |head| ==> (head + tail)[k] == head[k];
  }

  // ----- Pure relevance -----

  lemma BestIsFirst(value: Valuation, selected: seq<Item>, remaining: seq<Item>)
    requires forall sel, c :: value(sel, c) == c.score.finalScore
    requires Sorting.Ordered(Before, remaining) && remaining != []
    ensures Best(value, selected, remaining, |remaining|) == 0
  {
    var p := Best(value, selected, remaining, |remaining|);
    assert p == 0 || Before(remaining[0], remaining[p]);
  }

  lemma {:induction false} GreedyFollowsRelevance(value: Valuation, selected: seq<Item>, remaining: seq<Item>)
    requires forall sel, c :: value(sel, c) == c.score.finalScore
    requires Sorting.Ordered(Before, remaining)
    ensures Greedy(value, selected, remaining) == remaining
    decreases |remaining|
  {
    if remaining != [] {
      BestIsFirst(value, selected, remaining);
      assert Without(remaining, 0) == remaining[1..];
      assert Greedy(value, selected, remaining) ==
        [remaining[0]] + Greedy(value, selected + [remaining[0]], remaining[1..]);
      GreedyFollowsRelevance(value, selected + [remaining[0]], remaining[1..]);
    }
  }

  lemma PureValue(sel: seq<Item>, c: Item)
    ensures NaiveValue(1.0, 0, sel, c) == c.score.finalScore
  {
    assert (1.0 - 1.0) * MaxSimilarity(sel, c) == 0.0;
  }

  /** With tradeoff at 1 or above and no exploration slots the re-ranking is the relevance sort. */
  lemma PureRelevanceIsSorting(items: seq<Item>, tradeoff: real)
    requires tradeoff >= 1.0
    ensures NaiveRerank(items, tradeoff, 0) == ByRelevance(items)
  {
    var value := NaiveValuation(1.0, 0);
    forall sel, c ensures value(sel, c) == c.score.finalScore {
      PureValue(sel, c);
    }
    RerankSplits(items, tradeoff, 0);
    WindowAndTail(items);
    OrderedPrefix(Window(items), Tail(items));
    GreedyFollowsRelevance(value, [], Window(items));
  }

  lemma OrderedPrefix(head: seq<Item>, tail: seq<Item>)
    requires Sorting.Ordered(Before, head + tail)
    ensures Sorting.Ordered(Before, head)
  {
    assert forall k :: 0 <= k < |head| ==> (head + tail)[k] == head[k];
  }

  // ----- Optimality: what stands first was worth most when it was picked -----

  /** A game is like itself; of two, a shared mode counts 0.45, and how close they fit friends up to 0.35. */
  function Likeness(a: Item, b: Item): real {
    if a.appId == b.appId then 1.0 else LikenessOfTwo(a, b)
  }

  function LikenessOfTwo(a: Item, b: Item): real {
    var closeness := 0.35 - 0.35 * Abs(a.score.friendFit - b.score.friendFit);
    MaxReal(0.0, closeness + if a.dominantMode.Some? && b.dominantMode == a.dominantMode then 0.45 else 0.0)
  }

  /** p is how alike x is to the most alike of these, and 0 if there are none. */
  ghost predicate LargestLikeness(selected: seq<Item>, x: Item, p: real) {
    && (forall y <- selected :: Likeness(y, x) <= p)
    && if selected == [] then p == 0.0 else exists y <- selected :: Likeness(y, x) == p
  }

  /** What exploring is worth at position i: a promising game with little data, while slots are open. */
  function BonusAt(i: nat, slots: nat, x: Item): real {
    if i < slots && x.score.friendFit > 0.55 && EvidenceLow(x) then 0.02 else 0.0
  }

  lemma {:induction false} PenaltyIsLikeness(selected: seq<Item>, c: Item)
    ensures LargestLikeness(selected, c, MaxSimilarity(selected, c))
  {
    if selected != [] {
      var before, last := selected[..|selected| - 1], selected[|selected| - 1];
      assert selected == before + [last];
      PenaltyIsLikeness(before, c);
      assert Similarity(last, c) == Likeness(last, c) >= 0.0;
      var p := MaxSimilarity(before, c);
      if before != [] && p >= Likeness(last, c) {
        var y :| y in before && Likeness(y, c) == p;
        assert y in selected;
      } else {
        assert last in selected;
      }
    }
  }

  lemma LargestIsUnique(selected: seq<Item>, x: Item, p: real, q: real)
    requires LargestLikeness(selected, x, p) && LargestLikeness(selected, x, q)
    ensures p == q
  {
  }

  /** Worth more, or as much and before it by relevance. */
  ghost predicate Beats(value: Valuation, selected: seq<Item>, a: Item, b: Item) {
    || value(selected, b) < value(selected, a)
    || (value(selected, b) == value(selected, a) && Before(a, b))
  }

  lemma WithoutStaysOrdered(remaining: seq<Item>, p: nat)
    requires p < |remaining| && Sorting.Ordered(Before, remaining)
    ensures Sorting.Ordered(Before, Without(remaining, p))
  {
    var rest := Without(remaining, p);
    forall i | 0 <= i < |rest| ensures rest[i] == remaining[if i < p then i else i + 1] {
    }
  }

  lemma BestBeats(value: Valuation, selected: seq<Item>, remaining: seq<Item>, k: nat)
    requires k < |remaining| && Sorting.Ordered(Before, remaining)
    ensures var p := Best(value, selected, remaining, |remaining|);
            k != p ==> Beats(value, selected, remaining[p], remaining[k])
  {
  }

  lemma FoundElsewhere(remaining: seq<Item>, p: nat, more: seq<Item>, j: nat)
    requires p < |remaining| && multiset(more) == multiset(Without(remaining, p)) && j < |more|
    ensures exists k: nat :: k < |remaining| && k != p && remaining[k] == more[j]
  {
    var rest := Without(remaining, p);
    assert more[j] in multiset(more);
    var n :| 0 <= n < |rest| && rest[n] == more[j];
    assert remaining[if n < p then n else n + 1] == more[j];
  }

  lemma FirstPickIsBest(value: Valuation, selected: seq<Item>, remaining: seq<Item>, j: nat)
    requires 0 < j < |remaining| && Sorting.Ordered(Before, remaining)
    ensures var out := Greedy(value, selected, remaining);
            |out| == |remaining| && Beats(value, selected, out[0], out[j])
  {
    var p := Best(value, selected, remaining, |remaining|);
    var more := Greedy(value, selected + [remaining[p]], Without(remaining, p));
    GreedyKeeps(value, selected + [remaining[p]], Without(remaining, p));
    FoundElsewhere(remaining, p, more, j - 1);
    var k: nat :| k < |remaining| && k != p && remaining[k] == more[j - 1];
    BestBeats(value, selected, remaining, k);
  }

  /** The item at i was worth at least the one at j when it was picked. */
  ghost predicate PickedWell(value: Valuation, selected: seq<Item>, out: seq<Item>, i: nat, j: nat) {
    i < |out| && j < |out| && Beats(value, selected + out[..i], out[i], out[j])
  }

  lemma LaterPickIsBest(value: Valuation, selected: seq<Item>, first: Item, rest: seq<Item>, i: nat, j: nat)
    requires 0 < i < j && PickedWell(value, selected + [first], rest, i - 1, j - 1)
    ensures PickedWell(value, selected, [first] + rest, i, j)
  {
    assert selected + [first] + rest[..i - 1] == selected + ([first] + rest)[..i];
  }

  lemma {:induction false} EachPickIsBest(value: Valuation, selected: seq<Item>, remaining: seq<Item>, i: nat, j: nat)
    requires i < j < |remaining| && Sorting.Ordered(Before, remaining)
    ensures PickedWell(value, selected, Greedy(value, selected, remaining), i, j)
    decreases i
  {
    if i == 0 {
      FirstPickIsBest(value, selected, remaining, j);
      assert selected + Greedy(value, selected, remaining)[..0] == selected;
    } else {
      var p := Best(value, selected, remaining, |remaining|);
      var next, rest := selected + [remaining[p]], Without(remaining, p);
      WithoutStaysOrdered(remaining, p);
      EachPickIsBest(value, next, rest, i - 1, j - 1);
      LaterPickIsBest(value, selected, remaining[p], Greedy(value, next, rest), i, j);
    }
  }

  /** By how much b is more relevant than a, weighted. */
  ghost function Gain(tradeoff: real, a: Item, b: Item): real {
    tradeoff * (b.score.finalScore - a.score.finalScore)
  }

  /** By how much more alike to what is there b is than a, weighted. */
  ghost function Price(tradeoff: real, p: real, q: real): real {
    (1.0 - tradeoff) * (q - p)
  }

  lemma WorthMore(tradeoff: real, a: Item, b: Item, p: real, q: real, i: nat, slots: nat)
    ensures var va := Value(tradeoff, p, Explores(i, slots, a), a);
            var vb := Value(tradeoff, q, Explores(i, slots, b), b);
            vb - va == Gain(tradeoff, a, b) - Price(tradeoff, p, q) - (BonusAt(i, slots, a) - BonusAt(i, slots, b))
  {
  }

  /** The list is in its best order at i and j: the later one is not worth more, and on a tie less relevant. */
  ghost predicate BestAt(out: seq<Item>, tradeoff: real, slots: nat, i: nat, j: nat)
    requires i < j < |out|
  {
    forall p: real, q: real | LargestLikeness(out[..i], out[i], p) && LargestLikeness(out[..i], out[j], q) ::
      var gain := Gain(tradeoff, out[i], out[j]);
      var price := Price(tradeoff, p, q) + (BonusAt(i, slots, out[i]) - BonusAt(i, slots, out[j]));
      gain <= price && (gain == price ==> Before(out[i], out[j]))
  }

  lemma BeatingIsBest(head: seq<Item>, tradeoff: real, slots: nat, i: nat, j: nat)
    requires i < j < |head|
    requires Beats(NaiveValuation(tradeoff, slots), head[..i], head[i], head[j])
    ensures BestAt(head, tradeoff, slots, i, j)
  {
    var sel, a, b := head[..i], head[i], head[j];
    PenaltyIsLikeness(sel, a);
    PenaltyIsLikeness(sel, b);
    forall p: real, q: real | LargestLikeness(sel, a, p) && LargestLikeness(sel, b, q)
      ensures p == MaxSimilarity(sel, a) && q == MaxSimilarity(sel, b)
    {
      LargestIsUnique(sel, a, p, MaxSimilarity(sel, a));
      LargestIsUnique(sel, b, q, MaxSimilarity(sel, b));
    }
    WorthMore(tradeoff, a, b, MaxSimilarity(sel, a), MaxSimilarity(sel, b), i, slots);
  }

  lemma WindowIsBest(window: seq<Item>, tradeoff: real, slots: nat, i: nat, j: nat)
    requires i < j < |window| && Sorting.Ordered(Before, window)
    ensures var head := Greedy(NaiveValuation(tradeoff, slots), [], window);
            j < |head| && BestAt(head, tradeoff, slots, i, j)
  {
    var value := NaiveValuation(tradeoff, slots);
    var head := Greedy(value, [], window);
    EachPickIsBest(value, [], window, i, j);
    GreedyKeeps(value, [], window);
    assert [] + head[..i] == head[..i];
    BeatingIsBest(head, tradeoff, slots, i, j);
  }

  lemma BestInFront(head: seq<Item>, tail: seq<Item>, tradeoff: real, slots: nat, i: nat, j: nat)
    requires i < j < |head| && BestAt(head, tradeoff, slots, i, j)
    ensures BestAt(head + tail, tradeoff, slots, i, j)
  {
    assert (head + tail)[..i] == head[..i];
  }

  /**
    The order trades relevance against diversity exactly: of any two of the first 200, the later
    one's advantage in relevance, times lambda, is at most (1 - lambda) times its disadvantage in
    likeness to all that stands before the earlier one, plus the difference in exploration bonus;
    and when they balance, the more relevant one stands first.
   */
  lemma OrderIsOptimal(items: seq<Item>, tradeoff: real, slots: nat, i: nat, j: nat)
    requires i < j < |items| && j < 200
    ensures var out := NaiveRerank(items, tradeoff, slots);
            |out| == |items| && BestAt(out, Unit(tradeoff), slots, i, j)
  {
    RerankSplits(items, tradeoff, slots);
    WindowAndTail(items);
    OrderedPrefix(Window(items), Tail(items));
    WindowIsBest(Window(items), Unit(tradeoff), slots, i, j);
    BestInFront(Greedy(NaiveValuation(Unit(tradeoff), slots), [], Window(items)), Tail(items), Unit(tradeoff), slots,
                i, j);
  }

  lemma CheaperFirst(tradeoff: real, p: real, q: real)
    requires tradeoff < 1.0 && 0.0 <= Price(tradeoff, p, q)
    ensures p <= q && (0.0 == Price(tradeoff, p, q) <==> p == q)
  {
    if q < p {
      StrictProduct(1.0 - tradeoff, p - q);
    } else if p < q {
      StrictProduct(1.0 - tradeoff, q - p);
    }
  }

  lemma TieIsBroken(out: seq<Item>, tradeoff: real, i: nat, j: nat, p: real, q: real)
    requires tradeoff < 1.0 && i < j < |out| && BestAt(out, tradeoff, 0, i, j)
    requires out[i].score.finalScore == out[j].score.finalScore
    requires LargestLikeness(out[..i], out[i], p) && LargestLikeness(out[..i], out[j], q)
    ensures p <= q && (p == q ==> out[i].appId <= out[j].appId)
  {
    var gain, price := Gain(tradeoff, out[i], out[j]), Price(tradeoff, p, q);
    assert gain == 0.0;
    assert gain <= price && (gain == price ==> Before(out[i], out[j]));
    CheaperFirst(tradeoff, p, q);
  }

  /** With lambda below one and nothing to explore, of two equally relevant games the less similar one comes first. */
  lemma LessSimilarComesFirst(items: seq<Item>, tradeoff: real, i: nat, j: nat, p: real, q: real)
    requires tradeoff < 1.0
    requires i < j < |items| && j < 200
    requires var out := NaiveRerank(items, tradeoff, 0);
             && j < |out| && out[i].score.finalScore == out[j].score.finalScore
             && LargestLikeness(out[..i], out[i], p) && LargestLikeness(out[..i], out[j], q)
    ensures var out := NaiveRerank(items, tradeoff, 0);
            p <= q && (p == q ==> out[i].appId <= out[j].appId)
  {
    OrderIsOptimal(items, tradeoff, 0, i, j);
    TieIsBroken(NaiveRerank(items, tradeoff, 0), Unit(tradeoff), i, j, p, q);
  }
}
