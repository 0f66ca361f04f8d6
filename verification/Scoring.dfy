/** Precision, recall and F1 of retrieval, and their averages. Floating point is
    modelled by exact real arithmetic. */
module Scoring {
  import opened Collections

  datatype QAItem = QAItem(question: string, answer: string, evidence: seq<string>, category: int)

  datatype QueryResult = QueryResult(qa: QAItem, retrievedIds: seq<string>)

  datatype Metrics = Metrics(precision: real, recall: real, f1: real)

  datatype QuestionScore =
    QuestionScore(question: string, category: int, metrics: Metrics, retrieved: nat, evidence: nat)

  datatype CategoryScore = CategoryScore(category: string, count: nat, metrics: Metrics)

  // ---- One question ----

  function ElementsOf(items: seq<string>): set<string> {
    set x | x in items
  }

  /** The harmonic mean, 0 when both are 0. */
  function HarmonicMean(p: real, r: real): real {
    if p + r > 0.0 then 2.0 * p * r / (p + r) else 0.0
  }

  function Score(retrieved: set<string>, evidence: set<string>): Metrics {
    if evidence == {} then
      var f1 := if retrieved == {} then 1.0 else 0.0;
      Metrics(f1, 1.0, f1)
    else
      var tp := |retrieved * evidence| as real;
      var p := if retrieved == {} then 0.0 else tp / |retrieved| as real;
      var r := tp / |evidence| as real;
      Metrics(p, r, HarmonicMean(p, r))
  }

  method ToSet(items: seq<string>) returns (s: set<string>)
    ensures s == ElementsOf(items)
  {
    s := {};
    for i := 0 to |items|
      invariant s == ElementsOf(items[..i])
    {
      assert items[..i + 1] == items[..i] + [items[i]];
      s := s + {items[i]};
    }
    assert items[..|items|] == items;
  }

  method IntersectionSize(a: set<string>, b: set<string>) returns (count: nat)
    ensures count == |a * b|
  {
    count := 0;
    var todo := a;
    assert (a - todo) * b == {};
    while todo != {}
      invariant todo <= a && count == |(a - todo) * b|
      decreases todo
    {
      var k :| k in todo;
      if k in b {
        assert (a - (todo - {k})) * b == (a - todo) * b + {k};
        count := count + 1;
      } else {
        assert (a - (todo - {k})) * b == (a - todo) * b;
      }
      todo := todo - {k};
    }
    assert a - todo == a;
  }

  method ScoreQuestion(result: QueryResult) returns (score: QuestionScore)
    ensures var r, e := ElementsOf(result.retrievedIds), ElementsOf(result.qa.evidence);
      score == QuestionScore(result.qa.question, result.qa.category, Score(r, e), |r|, |e|)
  {
    var evidence := ToSet(result.qa.evidence);
    var retrieved := ToSet(result.retrievedIds);
    if |evidence| == 0 {
      var f1 := 0.0;
      if |retrieved| == 0 {
        f1 := 1.0;
      }
      return QuestionScore(result.qa.question, result.qa.category, Metrics(f1, 1.0, f1), |retrieved|, 0);
    }
    var tp := IntersectionSize(retrieved, evidence);
    var precision := 0.0;
    if |retrieved| > 0 {
      precision := tp as real / |retrieved| as real;
    }
    var recall := tp as real / |evidence| as real;
    var f1 := 0.0;
    if precision + recall > 0.0 {
      f1 := 2.0 * precision * recall / (precision + recall);
    }
    score := QuestionScore(result.qa.question, result.qa.category, Metrics(precision, recall, f1),
                           |retrieved|, |evidence|);
  }

  // ---- Arithmetic of one score ----

  lemma DivideProduct(a: real, b: real, c: real)
    requires b > 0.0 && a == c * b
    ensures a / b == c
  {
  }

  lemma FractionInUnit(a: real, b: real)
    requires 0.0 <= a <= b && b > 0.0
    ensures 0.0 <= a / b <= 1.0
  {
    var q := a / b;
    assert q * b == a;
    assert q > 1.0 ==> (q - 1.0) * b > 0.0;
    assert q < 0.0 ==> (-q) * b > 0.0;
  }

  /** The harmonic mean of two nonnegative numbers lies between them. */
  lemma HarmonicBetween(p: real, r: real)
    requires 0.0 <= p <= r
    ensures p <= HarmonicMean(p, r) <= r
    ensures HarmonicMean(p, r) == HarmonicMean(r, p)
  {
    if p + r > 0.0 {
      var h := HarmonicMean(p, r);
      assert h * (p + r) == 2.0 * p * r;
      assert p * (p + r) <= 2.0 * p * r by {
        assert p * (r - p) >= 0.0;
      }
      assert 2.0 * p * r <= r * (p + r) by {
        assert r * (r - p) >= 0.0;
      }
      assert 2.0 * p * r == 2.0 * r * p;
    }
  }

  /** With true positives `t`, `f` retrieved and `e` expected, the harmonic mean
      of t/f and t/e is 2t/(f+e). */
  lemma HarmonicOfFractions(t: real, f: real, e: real)
    requires t >= 0.0 && f > 0.0 && e > 0.0
    ensures HarmonicMean(t / f, t / e) == 2.0 * t / (f + e)
  {
    var p, r := t / f, t / e;
    assert p * f == t && r * e == t;
    if t == 0.0 {
      assert p == 0.0 && r == 0.0;
    } else {
      // 2pr(f+e) = 2t(p+r)
      assert (p * r) * f == t * r by { assert (p * r) * f == (p * f) * r; }
      assert (p * r) * e == t * p by { assert (p * r) * e == p * (r * e); }
      assert (p * r) * (f + e) == t * (p + r);
      assert 2.0 * p * r == 2.0 * (p * r);
    }
  }

  lemma IntersectionSmaller(a: set<string>, b: set<string>)
    ensures |a * b| <= |a| && |a * b| <= |b|
  {
    assert a == (a * b) + (a - b) && (a * b) !! (a - b);
    assert b == (a * b) + (b - a) && (a * b) !! (b - a);
  }

  /** For all inputs the three measures lie in [0, 1] and F1 lies between the
      other two. */
  lemma ScoreBounds(retrieved: set<string>, evidence: set<string>)
    ensures var m := Score(retrieved, evidence);
      && 0.0 <= m.precision <= 1.0 && 0.0 <= m.recall <= 1.0 && 0.0 <= m.f1 <= 1.0
      && (m.precision <= m.recall ==> m.precision <= m.f1 <= m.recall)
      && (m.recall <= m.precision ==> m.recall <= m.f1 <= m.precision)
  {
    if evidence != {} {
      IntersectionSmaller(retrieved, evidence);
      var m := Score(retrieved, evidence);
      if retrieved != {} {
        FractionInUnit(|retrieved * evidence| as real, |retrieved| as real);
      }
      FractionInUnit(|retrieved * evidence| as real, |evidence| as real);
      if m.precision <= m.recall {
        HarmonicBetween(m.precision, m.recall);
      } else {
        HarmonicBetween(m.recall, m.precision);
      }
    }
  }

  /** Precision is the share of the retrieved that was expected, recall the share
      of the expected that was retrieved. Where nothing was retrieved precision is
      0; where nothing was expected recall is 1, and precision and F1 are 1 or 0 as
      nothing or something was retrieved. */
  lemma ScoreMeaning(retrieved: set<string>, evidence: set<string>)
    ensures var m, hits := Score(retrieved, evidence), |retrieved * evidence| as real;
      && (evidence != {} ==> m.precision * |retrieved| as real == hits && m.recall * |evidence| as real == hits)
      && (evidence != {} && retrieved == {} ==> m.precision == 0.0)
      && (evidence == {} ==> m.recall == 1.0)
      && (evidence == {} && retrieved == {} ==> m.precision == 1.0 == m.f1)
      && (evidence == {} && retrieved != {} ==> m.precision == 0.0 == m.f1)
  {
    if retrieved == {} {
      assert retrieved * evidence == {};
    }
  }

  /** With evidence, F1 is twice the hits over the two set sizes. */
  lemma F1Formula(retrieved: set<string>, evidence: set<string>)
    requires evidence != {}
    ensures Score(retrieved, evidence).f1
         == 2.0 * (|retrieved * evidence| as real) / (|retrieved| as real + |evidence| as real)
  {
    if retrieved == {} {
      assert retrieved * evidence == {};
    } else {
      HarmonicOfFractions(|retrieved * evidence| as real, |retrieved| as real, |evidence| as real);
    }
  }

  /** Full marks mean that exactly the evidence was retrieved. */
  lemma PerfectScoreIff(retrieved: set<string>, evidence: set<string>)
    ensures Score(retrieved, evidence).f1 == 1.0 <==> retrieved == evidence
  {
    if evidence != {} {
      F1Formula(retrieved, evidence);
      IntersectionSmaller(retrieved, evidence);
      var t, f, e := |retrieved * evidence|, |retrieved|, |evidence|;
      var q := 2.0 * (t as real) / (f as real + e as real);
      assert q * (f as real + e as real) == 2.0 * (t as real);
      if q == 1.0 {
        assert 2 * t == f + e;
        assert t == f && t == e;
        SameSizeSubset(retrieved * evidence, retrieved);
        SameSizeSubset(retrieved * evidence, evidence);
      }
      if retrieved == evidence {
        assert retrieved * evidence == evidence;
        DivideProduct(2.0 * (t as real), f as real + e as real, 1.0);
      }
    }
  }
}
