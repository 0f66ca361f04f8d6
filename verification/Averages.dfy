/** Averages of question scores, per category and overall. */
module Averages {
  import opened Collections
  import opened Scoring

  const ZERO := Metrics(0.0, 0.0, 0.0)

  function Plus(a: Metrics, b: Metrics): Metrics {
    Metrics(a.precision + b.precision, a.recall + b.recall, a.f1 + b.f1)
  }

  function Over(a: Metrics, n: nat): Metrics
    requires n > 0
  {
    Metrics(a.precision / n as real, a.recall / n as real, a.f1 / n as real)
  }

  function Times(a: Metrics, n: nat): Metrics {
    Metrics(a.precision * n as real, a.recall * n as real, a.f1 * n as real)
  }

  /** All question categories, in order. */
  const ALL_CATEGORIES: seq<int> := [1, 2, 3, 4, 5]

  predicate Known(c: int) {
    1 <= c <= 5
  }

  function CategoryName(c: int): string
    requires Known(c)
  {
    ["single_hop", "temporal", "multi_hop", "open_domain", "adversarial"][c - 1]
  }

  function Total(scores: seq<QuestionScore>): Metrics {
    if scores == [] then ZERO
    else Plus(Total(scores[..|scores| - 1]), scores[|scores| - 1].metrics)
  }

  function CategoryTotal(scores: seq<QuestionScore>, c: int): Metrics {
    if scores == [] then ZERO
    else
      var last := scores[|scores| - 1];
      var before := CategoryTotal(scores[..|scores| - 1], c);
      if last.category == c then Plus(before, last.metrics) else before
  }

  function CategoryCount(scores: seq<QuestionScore>, c: int): nat {
    if scores == [] then 0
    else CategoryCount(scores[..|scores| - 1], c) + (if scores[|scores| - 1].category == c then 1 else 0)
  }

  /** One entry per category in `cats` that occurs, in that order. */
  function CategoryAverages(scores: seq<QuestionScore>, cats: seq<int>): seq<CategoryScore>
    requires forall c :: c in cats ==> Known(c)
  {
    if cats == [] then []
    else
      var c := cats[|cats| - 1];
      var n := CategoryCount(scores, c);
      CategoryAverages(scores, cats[..|cats| - 1])
      + (if n == 0 then [] else [CategoryScore(CategoryName(c), n, Over(CategoryTotal(scores, c), n))])
  }

  datatype Accumulator = Accumulator(sum: Metrics, count: nat)

  /** The buckets hold exactly the categories seen, with their totals. */
  ghost predicate BucketsOf(scores: seq<QuestionScore>, buckets: map<int, Accumulator>) {
    && (forall c :: c in buckets <==> CategoryCount(scores, c) > 0)
    && (forall c :: c in buckets ==> buckets[c] == Accumulator(CategoryTotal(scores, c), CategoryCount(scores, c)))
  }

  lemma {:induction false} UnseenHasNoTotal(scores: seq<QuestionScore>, c: int)
    requires CategoryCount(scores, c) == 0
    ensures CategoryTotal(scores, c) == ZERO
  {
    if scores != [] {
      UnseenHasNoTotal(scores[..|scores| - 1], c);
    }
  }

  lemma BucketAdded(scores: seq<QuestionScore>, s: QuestionScore, buckets: map<int, Accumulator>)
    requires BucketsOf(scores, buckets)
    ensures var acc := if s.category in buckets then buckets[s.category] else Accumulator(ZERO, 0);
      BucketsOf(scores + [s], buckets[s.category := Accumulator(Plus(acc.sum, s.metrics), acc.count + 1)])
  {
    assert (scores + [s])[..|scores|] == scores;
    if s.category !in buckets {
      UnseenHasNoTotal(scores, s.category);
    }
  }

  method AggregateByCategory(scores: seq<QuestionScore>) returns (result: seq<CategoryScore>)
    ensures result == CategoryAverages(scores, ALL_CATEGORIES)
    ensures |result| == Rank(scores, 6)
    ensures forall c :: 1 <= c <= 5 && OfCategory(scores, c) != [] ==> HasEntry(result, scores, c)
  {
    var buckets: map<int, Accumulator> := map[];
    for i := 0 to |scores|
      invariant BucketsOf(scores[..i], buckets)
    {
      var s := scores[i];
      var acc := if s.category in buckets then buckets[s.category] else Accumulator(ZERO, 0);
      BucketAdded(scores[..i], s, buckets);
      assert scores[..i + 1] == scores[..i] + [s];
      buckets := buckets[s.category := Accumulator(Plus(acc.sum, s.metrics), acc.count + 1)];
    }
    assert scores[..|scores|] == scores;
    result := [];
    for i := 0 to |ALL_CATEGORIES|
      invariant result == CategoryAverages(scores, ALL_CATEGORIES[..i])
    {
      var cat := ALL_CATEGORIES[i];
      assert ALL_CATEGORIES[..i + 1][..i] == ALL_CATEGORIES[..i];
      if cat in buckets {
        var acc := buckets[cat];
        result := result + [CategoryScore(CategoryName(cat), acc.count, Over(acc.sum, acc.count))];
      }
    }
    assert ALL_CATEGORIES[..|ALL_CATEGORIES|] == ALL_CATEGORIES;
    EntriesAreAverages(scores, 5);
  }

  method AggregateOverall(scores: seq<QuestionScore>) returns (r: CategoryScore)
    ensures scores == [] ==> r == CategoryScore("OVERALL", 0, Metrics(0.0, 0.0, 0.0))
    ensures scores != [] ==> IsAverage(r, "OVERALL", scores)
    ensures r == CategoryScore("OVERALL", |scores|, if scores == [] then ZERO else Over(Total(scores), |scores|))
  {
    if |scores| == 0 {
      return CategoryScore("OVERALL", 0, ZERO);
    }
    var sum := ZERO;
    for i := 0 to |scores|
      invariant sum == Total(scores[..i])
    {
      assert scores[..i + 1][..i] == scores[..i];
      sum := Plus(sum, scores[i].metrics);
    }
    assert scores[..|scores|] == scores;
    r := CategoryScore("OVERALL", |scores|, Over(sum, |scores|));
    OverIsAverage("OVERALL", scores);
  }

  // ---- What the averages are ----

  function Sum(xs: seq<real>): real {
    if xs == [] then 0.0 else Sum(xs[..|xs| - 1]) + xs[|xs| - 1]
  }

  function Precisions(scores: seq<QuestionScore>): seq<real> {
    seq(|scores|, i requires 0 <= i < |scores| => scores[i].metrics.precision)
  }

  function Recalls(scores: seq<QuestionScore>): seq<real> {
    seq(|scores|, i requires 0 <= i < |scores| => scores[i].metrics.recall)
  }

  function F1s(scores: seq<QuestionScore>): seq<real> {
    seq(|scores|, i requires 0 <= i < |scores| => scores[i].metrics.f1)
  }

  /** The scores of one category, in order. */
  function OfCategory(scores: seq<QuestionScore>, c: int): seq<QuestionScore> {
    if scores == [] then []
    else
      var last := scores[|scores| - 1];
      OfCategory(scores[..|scores| - 1], c) + (if last.category == c then [last] else [])
  }

  /** Count and means, measure by measure, of a list of scores. */
  predicate IsAverage(e: CategoryScore, name: string, scores: seq<QuestionScore>) {
    && e.category == name && e.count == |scores|
    && e.metrics.precision * |scores| as real == Sum(Precisions(scores))
    && e.metrics.recall * |scores| as real == Sum(Recalls(scores))
    && e.metrics.f1 * |scores| as real == Sum(F1s(scores))
  }

  lemma {:induction false} TotalIsSum(scores: seq<QuestionScore>)
    ensures Total(scores) == Metrics(Sum(Precisions(scores)), Sum(Recalls(scores)), Sum(F1s(scores)))
  {
    if scores != [] {
      var n := |scores| - 1;
      TotalIsSum(scores[..n]);
      assert Precisions(scores)[..n] == Precisions(scores[..n]);
      assert Recalls(scores)[..n] == Recalls(scores[..n]);
      assert F1s(scores)[..n] == F1s(scores[..n]);
    }
  }

  lemma {:induction false} CategoryIsFiltered(scores: seq<QuestionScore>, c: int)
    ensures CategoryCount(scores, c) == |OfCategory(scores, c)|
    ensures CategoryTotal(scores, c) == Total(OfCategory(scores, c))
  {
    if scores != [] {
      CategoryIsFiltered(scores[..|scores| - 1], c);
      var before := OfCategory(scores[..|scores| - 1], c);
      if scores[|scores| - 1].category == c {
        assert (before + [scores[|scores| - 1]])[..|before|] == before;
      } else {
        assert OfCategory(scores, c) == before;
      }
    }
  }

  lemma DivideBack(x: real, n: nat)
    requires n > 0
    ensures x / n as real * n as real == x
  {
  }

  /** Dividing the totals by the count gives the means. */
  lemma OverIsAverage(name: string, scores: seq<QuestionScore>)
    requires scores != []
    ensures IsAverage(CategoryScore(name, |scores|, Over(Total(scores), |scores|)), name, scores)
  {
    hide Total, Sum, Precisions, Recalls, F1s;
    TotalIsSum(scores);
    DivideBack(Sum(Precisions(scores)), |scores|);
    DivideBack(Sum(Recalls(scores)), |scores|);
    DivideBack(Sum(F1s(scores)), |scores|);
  }

  /** How many of the categories below `c` occur. */
  ghost function Rank(scores: seq<QuestionScore>, c: int): nat {
    |set d | 1 <= d < c && OfCategory(scores, d) != []|
  }

  lemma RankNext(scores: seq<QuestionScore>, c: int)
    requires c >= 1
    ensures Rank(scores, c + 1) == Rank(scores, c) + OneIf(OfCategory(scores, c) != [])
  {
    var low := set d | 1 <= d < c && OfCategory(scores, d) != [];
    assert (set d | 1 <= d < c + 1 && OfCategory(scores, d) != [])
        == low + (if OfCategory(scores, c) != [] then {c} else {});
  }

  /** The entry of the category stands where the order of categories puts it. */
  ghost predicate HasEntry(entries: seq<CategoryScore>, scores: seq<QuestionScore>, c: int)
    requires Known(c)
  {
    var name := ["single_hop", "temporal", "multi_hop", "open_domain", "adversarial"][c - 1];
    Rank(scores, c) < |entries| && IsAverage(entries[Rank(scores, c)], name, OfCategory(scores, c))
  }

  /** Exactly the known categories that occur have an entry, in order, with the
      number of their scores and the means of these. */
  lemma {:induction false} EntriesAreAverages(scores: seq<QuestionScore>, n: nat)
    requires n <= 5
    ensures forall c :: c in ALL_CATEGORIES[..n] ==> Known(c)
    ensures var entries := CategoryAverages(scores, ALL_CATEGORIES[..n]);
      && |entries| == Rank(scores, n + 1)
      && (forall c :: 1 <= c <= n && OfCategory(scores, c) != [] ==> HasEntry(entries, scores, c))
  {
    if n == 0 {
      assert (set d | 1 <= d < 1 && OfCategory(scores, d) != []) == {};
    } else {
      EntriesAreAverages(scores, n - 1);
      var before := CategoryAverages(scores, ALL_CATEGORIES[..n - 1]);
      assert ALL_CATEGORIES[..n][..n - 1] == ALL_CATEGORIES[..n - 1] && ALL_CATEGORIES[..n][n - 1] == n;
      CategoryIsFiltered(scores, n);
      RankNext(scores, n);
      var entries := CategoryAverages(scores, ALL_CATEGORIES[..n]);
      if OfCategory(scores, n) != [] {
        OverIsAverage(CategoryName(n), OfCategory(scores, n));
      }
      forall c | 1 <= c <= n && OfCategory(scores, c) != [] ensures HasEntry(entries, scores, c) {
        if c < n {
          assert HasEntry(before, scores, c);
          assert entries[Rank(scores, c)] == before[Rank(scores, c)];
        }
      }
    }
  }

  // ---- The two aggregates agree ----

  function CountSum(cs: seq<CategoryScore>): nat {
    if cs == [] then 0 else CountSum(cs[..|cs| - 1]) + cs[|cs| - 1].count
  }

  function WeightedSum(cs: seq<CategoryScore>): Metrics {
    if cs == [] then ZERO
    else Plus(WeightedSum(cs[..|cs| - 1]), Times(cs[|cs| - 1].metrics, cs[|cs| - 1].count))
  }

  predicate AllKnown(scores: seq<QuestionScore>) {
    forall i :: 0 <= i < |scores| ==> Known(scores[i].category)
  }

  function KnownCount(scores: seq<QuestionScore>, cats: seq<int>): nat {
    if cats == [] then 0 else KnownCount(scores, cats[..|cats| - 1]) + CategoryCount(scores, cats[|cats| - 1])
  }

  function KnownTotal(scores: seq<QuestionScore>, cats: seq<int>): Metrics {
    if cats == [] then ZERO
    else Plus(KnownTotal(scores, cats[..|cats| - 1]), CategoryTotal(scores, cats[|cats| - 1]))
  }

  lemma AverageTimesCount(a: Metrics, n: nat)
    requires n > 0
    ensures Times(Over(a, n), n) == a
  {
  }

  lemma {:induction false} AveragesUndone(scores: seq<QuestionScore>, cats: seq<int>)
    requires forall c :: c in cats ==> Known(c)
    ensures var cs := CategoryAverages(scores, cats);
      CountSum(cs) == KnownCount(scores, cats) && WeightedSum(cs) == KnownTotal(scores, cats)
  {
    hide Over, Times;
    if cats != [] {
      var c, init := cats[|cats| - 1], cats[..|cats| - 1];
      AveragesUndone(scores, init);
      var cs, n := CategoryAverages(scores, init), CategoryCount(scores, c);
      if n == 0 {
        UnseenHasNoTotal(scores, c);
        assert CategoryAverages(scores, cats) == cs;
      } else {
        var entry := CategoryScore(CategoryName(c), n, Over(CategoryTotal(scores, c), n));
        assert (cs + [entry])[..|cs|] == cs;
        AverageTimesCount(CategoryTotal(scores, c), n);
      }
    }
  }

  /** A score counts in exactly one of the five categories, or in none. */
  lemma {:induction false} KnownSnoc(scores: seq<QuestionScore>, cats: seq<int>)
    requires scores != [] && Distinct(cats)
    ensures var init, last := scores[..|scores| - 1], scores[|scores| - 1];
      && KnownCount(scores, cats) == KnownCount(init, cats) + OneIf(last.category in cats)
      && KnownTotal(scores, cats)
           == (if last.category in cats then Plus(KnownTotal(init, cats), last.metrics) else KnownTotal(init, cats))
  {
    if cats != [] {
      var rest := cats[..|cats| - 1];
      KnownSnoc(scores, rest);
      assert cats == rest + [cats[|cats| - 1]];
      assert cats[|cats| - 1] !in rest;
    }
  }

  lemma {:induction false} KnownOverScores(scores: seq<QuestionScore>)
    ensures KnownCount(scores, ALL_CATEGORIES) <= |scores|
    ensures KnownCount(scores, ALL_CATEGORIES) == |scores| <==> AllKnown(scores)
    ensures AllKnown(scores) ==> KnownTotal(scores, ALL_CATEGORIES) == Total(scores)
  {
    if scores == [] {
      NoScores(ALL_CATEGORIES);
    } else {
      var init := scores[..|scores| - 1];
      KnownOverScores(init);
      KnownSnoc(scores, ALL_CATEGORIES);
      assert scores[|scores| - 1].category in ALL_CATEGORIES <==> Known(scores[|scores| - 1].category);
      assert AllKnown(scores) <==> AllKnown(init) && Known(scores[|scores| - 1].category) by {
        assert forall i :: 0 <= i < |init| ==> init[i] == scores[i];
      }
    }
  }

  lemma {:induction false} NoScores(cats: seq<int>)
    ensures KnownCount([], cats) == 0 && KnownTotal([], cats) == ZERO
  {
    if cats != [] {
      NoScores(cats[..|cats| - 1]);
    }
  }

  /** The category counts add up to the number of questions exactly when every
      question has one of the five categories. */
  lemma CountsAddUpIff(scores: seq<QuestionScore>)
    ensures CountSum(CategoryAverages(scores, ALL_CATEGORIES)) == |scores| <==> AllKnown(scores)
  {
    AveragesUndone(scores, ALL_CATEGORIES);
    KnownOverScores(scores);
  }

  /** Then the overall average is the count-weighted average of the categories. */
  lemma OverallIsWeightedAverage(scores: seq<QuestionScore>)
    requires scores != [] && AllKnown(scores)
    ensures Over(WeightedSum(CategoryAverages(scores, ALL_CATEGORIES)), |scores|) == Over(Total(scores), |scores|)
  {
    AveragesUndone(scores, ALL_CATEGORIES);
    KnownOverScores(scores);
  }
}
