/** The at-risk scoring engine: five weighted factors per student (average below the pass mark,
 *  subjects failed, a declining term trend, distance below the class mean, a sudden drop between
 *  terms), a capped and rounded risk score with its level and recommendation, then the list of
 *  students below both the school average and the pass mark, riskiest first, with summary counts. */
module Risk {
  import opened Wrappers
  import opened Text
  import opened Seqs
  import opened Numeric
  import opened Frames
  import opened Stats
  import Terms

  /** The engine's own alias lists for deriving the percentage column. */
  const RISK_SCORE_ALIASES: seq<string> := ["score", "marks", "mark", "total"]
  const RISK_MAX_ALIASES: seq<string> := ["max_score", "max_marks", "out_of"]

  // ---------------------------------------------------------------------------------------------
  // Recommendation library

  /** The entries of the recommendation library, and the closing remark for a low risk. */
  datatype Advice = OverallAverage | SubjectsFailed | NegativeTrend | ClassDeviation | SuddenDrop
    | GeneralHigh | GeneralMedium | Satisfactory

  /** The library's keys. */
  const RECOMMENDATIONS: map<string, Advice> := map[
    "overall_average" := OverallAverage, "subjects_failed" := SubjectsFailed,
    "negative_trend" := NegativeTrend, "class_deviation" := ClassDeviation,
    "sudden_drop" := SuddenDrop, "general_high" := GeneralHigh, "general_medium" := GeneralMedium]

  function AdviceText(a: Advice): string
  {
    match a
    case OverallAverage =>
      "Schedule a one-on-one meeting with the student to discuss study strategies. "
      + "Consider pairing with a stronger peer for study support."
    case SubjectsFailed =>
      "Arrange a multi-subject support plan with the class teacher. "
      + "Prioritize remedial classes in the weakest subjects."
    case NegativeTrend =>
      "Review term-by-term attendance records and check for external disruptions. "
      + "Engage the parent or guardian to identify barriers to learning."
    case ClassDeviation =>
      "Investigate whether the student requires targeted academic support. "
      + "Consider assigning a study buddy within the class."
    case SuddenDrop =>
      "Investigate sudden performance changes \U{2014} possible causes include "
      + "personal issues, teacher changes, or health problems. "
      + "Talk to the student privately."
    case GeneralHigh =>
      "This student is at high risk of academic failure. Immediate intervention is recommended: "
      + "involve the guidance counselor, parents, and class teacher in a support plan."
    case GeneralMedium =>
      "This student shows signs of struggling. Monitor closely this term and consider "
      + "additional support in weak subjects."
    case Satisfactory => "Student is performing satisfactorily. Continue monitoring."
  }

  /** A recommendation is a list of library entries joined by single spaces. */
  function RecommendationText(parts: seq<Advice>): string
  {
    if parts == [] then ""
    else if |parts| == 1 then AdviceText(parts[0])
    else AdviceText(parts[0]) + " " + RecommendationText(parts[1..])
  }

  // ---------------------------------------------------------------------------------------------
  // Factors

  const AVERAGE: string := "Overall Average"
  const FAILED: string := "Subjects Failed"
  const TREND: string := "Score Trend"
  const DEVIATION: string := "Class Deviation"
  const DROP: string := "Sudden Drop"

  /** One entry of a student's factor list (its free-text detail is not modelled). */
  datatype Factor = Factor(name: string, weight: nat, triggered: bool, failedSubjects: seq<string>)

  /** A factor's score on the 0..100 scale with the entries it appends to the factor list. */
  datatype Scored = Scored(score: real, factors: seq<Factor>)

  /** Factor 1: an average below the pass mark scores its shortfall as a share of the pass mark. A
   *  pass mark of 0 divides by zero, which numpy turns into infinity and the cap into 100. */
  function AverageFactor(mean: real, passMark: int): Scored
  {
    var pm := passMark as real;
    if mean < pm then
      Scored(if passMark == 0 then 100.0 else MinR((pm - mean) / pm * 100.0, 100.0), [Factor(AVERAGE, 30, true, [])])
    else
      Scored(0.0, [Factor(AVERAGE, 30, false, [])])
  }

  /** The subjects whose mean is below the pass mark (a missing mean never is), in key order. */
  function FailedSubjects(means: seq<Ranked>, passMark: int): (r: seq<Cell>)
    ensures |r| <= |means|
  {
    if means == [] then []
    else
      var last := means[|means| - 1];
      FailedSubjects(means[..|means| - 1], passMark)
        + (if last.mean.Some? && last.mean.value < passMark as real then [last.key] else [])
  }

  /** Factor 2: three or more failed subjects score the failed share of all subjects; one or two
   *  score half of it; the subject names are listed only in the first case. */
  function FailFactor(means: seq<Ranked>, passMark: int): Scored
  {
    var failed := FailedSubjects(means, passMark);
    var n := |failed| as real;
    var total := (if |means| >= 1 then |means| else 1) as real;
    if |failed| >= 3 then
      Scored(MinR(n / total * 100.0, 100.0), [Factor(FAILED, 25, true, seq(|failed|, i requires 0 <= i < |failed| => CellString(failed[i])))])
    else
      Scored(if |failed| > 0 then n / total * 50.0 else 0.0, [Factor(FAILED, 25, |failed| > 0, [])])
  }

  /** The least-squares slope of the term means in label order; None for fewer than two terms.
   *  Only the present means enter the fit. */
  function TermSlope(means: seq<Ranked>): Option<real>
  {
    if |means| < 2 then None
    else
      var ys := Terms.Present(seq(|means|, i requires 0 <= i < |means| => means[i].mean));
      Some(if |ys| >= 2 then Slope(ys) else 0.0)
  }

  /** Factor 3: a slope below -3 points per term scores ten times its size; an improving or stable
   *  slope, or too few terms, appends an untriggered entry. */
  function TrendFactor(means: seq<Ranked>): Scored
  {
    match TermSlope(means)
    case None => Scored(0.0, [Factor(TREND, 25, false, [])])
    case Some(slope) =>
      if slope < -3.0 then Scored(MinR(Abs(slope) / 10.0 * 100.0, 100.0), [Factor(TREND, 25, true, [])])
      else Scored(0.0, [Factor(TREND, 25, false, [])])
  }

  /** "declining", "improving" or "stable", by the same slope thresholds. */
  function TrendDirection(terms: Option<seq<Ranked>>): string
  {
    if terms.None? then "stable"
    else
      match TermSlope(terms.value)
      case None => "stable"
      case Some(slope) => if slope < -3.0 then "declining" else if slope > 3.0 then "improving" else "stable"
  }

  /** The mean and sample standard deviation of a class with at least two scores. */
  datatype ClassStat = ClassStat(mean: real, std: real)

  /** Factor 4: a mean more than 1.5 deviations below the class mean scores a third of the
   *  deviation count; nothing is appended when the class has no spread or no statistics. */
  function DeviationFactor(stat: Option<ClassStat>, mean: real): Scored
  {
    if stat.Some? && stat.value.std > 0.0 then
      var deviation := (stat.value.mean - mean) / stat.value.std;
      if deviation > 1.5 then Scored(MinR(deviation / 3.0 * 100.0, 100.0), [Factor(DEVIATION, 10, true, [])])
      else Scored(0.0, [Factor(DEVIATION, 10, false, [])])
    else Scored(0.0, [])
  }

  /** Factor 5: a largest single-term drop over 20 points scores it against 40 points. */
  function DropFactor(biggest: Option<real>): Scored
  {
    match biggest
    case None => Scored(0.0, [])
    case Some(b) =>
      if b > 20.0 then Scored(MinR(b / 40.0 * 100.0, 100.0), [Factor(DROP, 10, true, [])])
      else Scored(0.0, [Factor(DROP, 10, false, [])])
  }

  // ---------------------------------------------------------------------------------------------
  // Factor lemmas

  /** The average factor triggers exactly below the pass mark, and then scores in (0, 100]. */
  lemma AverageFactorSpec(mean: real, passMark: int)
    requires passMark > 0
    ensures var r := AverageFactor(mean, passMark);
      && |r.factors| == 1 && r.factors[0].name == AVERAGE && r.factors[0].weight == 30
      && (r.factors[0].triggered <==> mean < passMark as real)
      && (r.score > 0.0 <==> mean < passMark as real)
      && 0.0 <= r.score <= 100.0
  {
    var pm := passMark as real;
    if mean < pm {
      assert (pm - mean) / pm > 0.0;
    }
  }

  /** Failed subjects are subjects with a mean below the pass mark, and every such subject is
   *  failed. */
  lemma {:induction false} FailedSubjectsSpec(means: seq<Ranked>, passMark: int)
    ensures forall c :: c in FailedSubjects(means, passMark) <==>
      exists i :: 0 <= i < |means| && means[i].key == c && means[i].mean.Some? && means[i].mean.value < passMark as real
  {
    if means != [] {
      var init := means[..|means| - 1];
      FailedSubjectsSpec(init, passMark);
      forall c ensures c in FailedSubjects(means, passMark) <==>
        exists i :: 0 <= i < |means| && means[i].key == c && means[i].mean.Some? && means[i].mean.value < passMark as real
      {
        if exists i :: 0 <= i < |means| && means[i].key == c && means[i].mean.Some? && means[i].mean.value < passMark as real {
          var i :| 0 <= i < |means| && means[i].key == c && means[i].mean.Some? && means[i].mean.value < passMark as real;
          if i < |means| - 1 {
            assert init[i] == means[i];
          }
        }
        if c in FailedSubjects(init, passMark) {
          var i :| 0 <= i < |init| && init[i].key == c && init[i].mean.Some? && init[i].mean.value < passMark as real;
          assert means[i] == init[i];
        }
      }
    }
  }

  /** The fail factor triggers exactly when some subject is failed, and scores in [0, 100], above
   *  zero exactly when it triggers. */
  lemma FailFactorSpec(means: seq<Ranked>, passMark: int)
    ensures var r := FailFactor(means, passMark);
      && |r.factors| == 1 && r.factors[0].name == FAILED && r.factors[0].weight == 25
      && (r.factors[0].triggered <==> |FailedSubjects(means, passMark)| > 0)
      && (r.score > 0.0 <==> r.factors[0].triggered)
      && 0.0 <= r.score <= 100.0
  {
    var failed := FailedSubjects(means, passMark);
    var total := (if |means| >= 1 then |means| else 1) as real;
    assert |failed| as real <= total;
    if 0 < |failed| < 3 {
      assert |failed| as real / total <= 1.0;
    }
    if |failed| >= 3 {
      assert |failed| as real / total > 0.0;
    }
  }

  /** The trend factor triggers exactly for a slope below -3, and scores in [0, 100]. */
  lemma TrendFactorSpec(means: seq<Ranked>)
    ensures var r := TrendFactor(means);
      && |r.factors| == 1 && r.factors[0].name == TREND && r.factors[0].weight == 25
      && (r.factors[0].triggered <==> TermSlope(means).Some? && TermSlope(means).value < -3.0)
      && (r.score > 0.0 <==> r.factors[0].triggered)
      && 0.0 <= r.score <= 100.0
      && (TrendDirection(Some(means)) == "declining" <==> r.factors[0].triggered)
  {
  }

  /** The deviation factor triggers exactly more than 1.5 deviations below a spread class. */
  lemma DeviationFactorSpec(stat: Option<ClassStat>, mean: real)
    ensures var r := DeviationFactor(stat, mean);
      && |r.factors| <= 1
      && (|r.factors| == 1 <==> stat.Some? && stat.value.std > 0.0)
      && (forall f <- r.factors :: f.name == DEVIATION && f.weight == 10
            && (f.triggered <==> (stat.value.mean - mean) / stat.value.std > 1.5))
      && (r.score > 0.0 <==> exists f <- r.factors :: f.triggered)
      && 0.0 <= r.score <= 100.0
  {
    var r := DeviationFactor(stat, mean);
    if |r.factors| == 1 {
      assert r.factors[0] in r.factors;
    }
  }

  /** The drop factor triggers exactly for a drop of more than 20 points. */
  lemma DropFactorSpec(biggest: Option<real>)
    ensures var r := DropFactor(biggest);
      && (|r.factors| == 1 <==> biggest.Some?) && |r.factors| <= 1
      && (forall f <- r.factors :: f.name == DROP && f.weight == 10 && (f.triggered <==> biggest.value > 20.0))
      && (r.score > 0.0 <==> biggest.Some? && biggest.value > 20.0)
      && 0.0 <= r.score <= 100.0
  {
  }

  // ---------------------------------------------------------------------------------------------
  // The largest drop between consecutive terms

  /** The largest drop seen so far, with the subject it was seen in. */
  datatype Drop = Drop(amount: real, subject: Option<Cell>)

  const NO_DROP: Drop := Drop(0.0, None)

  /** One comparison of the drop scan: a strictly larger drop between two present scores replaces
   *  the current one. */
  function StepDrop(subject: Cell, prev: Option<real>, cur: Option<real>, d: Drop): Drop
  {
    if prev.Some? && cur.Some? && prev.value - cur.value > d.amount then Drop(prev.value - cur.value, Some(subject))
    else d
  }

  /** The scan of one subject's scores, in term order, from drop `d`. */
  function ScanScores(subject: Cell, scores: seq<Option<real>>, d: Drop): Drop
  {
    if |scores| < 2 then d
    else StepDrop(subject, scores[|scores| - 2], scores[|scores| - 1], ScanScores(subject, scores[..|scores| - 1], d))
  }

  /** The scan of every subject's scores, in subject order, from drop `d`. */
  function ScanSeries(series: seq<(Cell, seq<Option<real>>)>, d: Drop): Drop
  {
    if series == [] then d
    else
      var last := series[|series| - 1];
      ScanScores(last.0, last.1, ScanSeries(series[..|series| - 1], d))
  }

  /** The inner loop of the drop scan over one subject's scores. */
  method ScanSubject(subject: Cell, scores: seq<Option<real>>, start: Drop) returns (d: Drop)
    ensures d == ScanScores(subject, scores, start)
  {
    d := start;
    if |scores| == 0 {
      return;
    }
    var i := 1;
    while i < |scores|
      invariant 1 <= i <= |scores|
      invariant d == ScanScores(subject, scores[..i], start)
    {
      assert scores[..i + 1][..i] == scores[..i];
      if scores[i].Some? && scores[i - 1].Some? {
        var drop := scores[i - 1].value - scores[i].value;
        if drop > d.amount {
          d := Drop(drop, Some(subject));
        }
      }
      i := i + 1;
    }
    assert scores[..i] == scores;
  }

  /** `biggest_drop` and `drop_subject` after the scan of every subject. */
  method BiggestDrop(series: seq<(Cell, seq<Option<real>>)>) returns (d: Drop)
    ensures d == ScanSeries(series, NO_DROP)
  {
    d := NO_DROP;
    var s := 0;
    while s < |series|
      invariant 0 <= s <= |series|
      invariant d == ScanSeries(series[..s], NO_DROP)
    {
      assert series[..s + 1][..s] == series[..s];
      d := ScanSubject(series[s].0, series[s].1, d);
      s := s + 1;
    }
    assert series[..s] == series;
  }

  /** A consecutive pair of present scores in one subject that drops by `amount`. */
  predicate DropAt(scores: seq<Option<real>>, i: int, amount: real)
  {
    1 <= i < |scores| && scores[i - 1].Some? && scores[i].Some? && scores[i - 1].value - scores[i].value == amount
  }

  /** Scanning one subject never lowers the drop, ends at least as large as each of its drops, and
   *  ends either where it started or at one of its drops, recorded with its subject. */
  lemma {:induction false} ScanScoresSpec(subject: Cell, scores: seq<Option<real>>, d: Drop)
    ensures var r := ScanScores(subject, scores, d);
      && r.amount >= d.amount
      && (forall i :: 1 <= i < |scores| && scores[i - 1].Some? && scores[i].Some? ==> r.amount >= scores[i - 1].value - scores[i].value)
      && (r == d || (r.subject == Some(subject) && exists i :: DropAt(scores, i, r.amount)))
  {
    if |scores| >= 2 {
      var init := scores[..|scores| - 1];
      ScanScoresSpec(subject, init, d);
      var p := ScanScores(subject, init, d);
      var r := ScanScores(subject, scores, d);
      assert r == StepDrop(subject, scores[|scores| - 2], scores[|scores| - 1], p);
      forall i | 1 <= i < |scores| && scores[i - 1].Some? && scores[i].Some?
        ensures r.amount >= scores[i - 1].value - scores[i].value
      {
        if i < |scores| - 1 {
          assert init[i - 1] == scores[i - 1] && init[i] == scores[i];
        }
      }
      if r != d {
        if r == p {
          var i :| DropAt(init, i, r.amount);
          assert DropAt(scores, i, r.amount);
        } else {
          assert DropAt(scores, |scores| - 1, r.amount);
        }
      }
    }
  }

  /** The largest drop over all subjects: at least zero, at least every drop of every subject, and
   *  either zero with no subject or one of the drops, with its subject. */
  lemma {:induction false} BiggestDropSpec(series: seq<(Cell, seq<Option<real>>)>)
    ensures var r := ScanSeries(series, NO_DROP);
      && r.amount >= 0.0
      && (forall k, i :: 0 <= k < |series| && 1 <= i < |series[k].1| && series[k].1[i - 1].Some? && series[k].1[i].Some?
            ==> r.amount >= series[k].1[i - 1].value - series[k].1[i].value)
      && (r == NO_DROP || (r.subject.Some? && exists k, i :: 0 <= k < |series| && series[k].0 == r.subject.value && DropAt(series[k].1, i, r.amount)))
  {
    if series != [] {
      var init := series[..|series| - 1];
      var last := series[|series| - 1];
      BiggestDropSpec(init);
      var p := ScanSeries(init, NO_DROP);
      ScanScoresSpec(last.0, last.1, p);
      var r := ScanSeries(series, NO_DROP);
      assert r == ScanScores(last.0, last.1, p);
      forall k, i | 0 <= k < |series| && 1 <= i < |series[k].1| && series[k].1[i - 1].Some? && series[k].1[i].Some?
        ensures r.amount >= series[k].1[i - 1].value - series[k].1[i].value
      {
        if k < |series| - 1 {
          assert init[k] == series[k];
        }
      }
      if r != NO_DROP {
        if r == p {
          var k, i :| 0 <= k < |init| && init[k].0 == r.subject.value && DropAt(init[k].1, i, r.amount);
          assert series[k] == init[k];
        } else {
          var i :| DropAt(last.1, i, r.amount);
          assert series[|series| - 1] == last;
        }
      }
    }
  }

  /** `sort_values(term_col)`: term labels in `groupby` order, missing labels last. */
  predicate TermFirst(a: (Cell, Option<real>), b: (Cell, Option<real>))
  {
    b.0.Missing? || (!a.0.Missing? && CellLe(a.0, b.0))
  }

  lemma TermFirstTotalPreorder()
    ensures TotalPreorder(TermFirst)
  {
    CellLeTotalPreorder();
  }

  /** One subject's (term, percentage) pairs in row order. */
  function TermScores(rows: seq<Row>, termCol: string): (r: seq<(Cell, Option<real>)>)
    ensures |r| == |rows|
  {
    seq(|rows|, i requires 0 <= i < |rows| => (Get(rows[i], termCol), Pct(rows[i])))
  }

  /** The scores of one subject in term order. */
  function ScoresByTerm(rows: seq<Row>, subjectCol: string, termCol: string, subject: Cell): seq<Option<real>>
  {
    var sorted := SortBy(TermScores(RowsWhere(rows, subjectCol, subject), termCol), TermFirst);
    seq(|sorted|, i requires 0 <= i < |sorted| => sorted[i].1)
  }

  /** Each subject of a student, in first-appearance order, with its scores in term order. */
  function SubjectSeries(rows: seq<Row>, subjectCol: string, termCol: string): (r: seq<(Cell, seq<Option<real>>)>)
  {
    var subjects := PresentUnique(rows, subjectCol);
    seq(|subjects|, k requires 0 <= k < |subjects| => (subjects[k], ScoresByTerm(rows, subjectCol, termCol, subjects[k])))
  }

  // ---------------------------------------------------------------------------------------------
  // One student's assessment

  datatype Level = High | Medium | Low

  /** High from 70, Medium from 40, Low below. */
  function LevelOf(score: real): (r: Level)
  {
    if score >= 70.0 then High else if score >= 40.0 then Medium else Low
  }

  lemma LevelSpec(score: real)
    ensures LevelOf(score) == High <==> score >= 70.0
    ensures LevelOf(score) == Medium <==> 40.0 <= score < 70.0
    ensures LevelOf(score) == Low <==> score < 40.0
  {
  }

  predicate IsTriggered(f: Factor) { f.triggered }

  /** The position of Python's `max` by weight: the first of the heaviest entries. */
  function TopIndex(fs: seq<Factor>): (i: nat)
    requires |fs| > 0
    ensures i < |fs|
    ensures forall j :: 0 <= j < |fs| ==> fs[j].weight <= fs[i].weight
    ensures forall j :: 0 <= j < i ==> fs[j].weight < fs[i].weight
  {
    if |fs| == 1 then 0
    else
      var rest := TopIndex(fs[1..]);
      if fs[1 + rest].weight > fs[0].weight then 1 + rest else 0
  }

  /** General advice for the level; High adds the advice of the heaviest triggered factor when
   *  the library has an entry under its snake-cased name. */
  function RecommendationOf(level: Level, factors: seq<Factor>): seq<Advice>
  {
    match level
    case High =>
      var triggered := Filter(factors, IsTriggered);
      if |triggered| == 0 then [GeneralHigh]
      else
        var key := Slug(triggered[TopIndex(triggered)].name);
        if key in RECOMMENDATIONS then [GeneralHigh, RECOMMENDATIONS[key]] else [GeneralHigh]
    case Medium => [GeneralMedium]
    case Low => [Satisfactory]
  }

  /** What the scoring uses of one student's rows. */
  datatype Signals = Signals(
    mean: real,
    subjects: Option<seq<Ranked>>,
    terms: Option<seq<Ranked>>,
    classStat: Option<ClassStat>,
    biggestDrop: Option<real>)

  datatype Assessment = Assessment(
    studentId: string,
    name: string,
    riskScore: real,
    level: Level,
    overallMean: Option<real>,
    trendDirection: string,
    factors: seq<Factor>,
    recommendation: seq<Advice>,
    className: Option<string>)

  function SubjectPart(sig: Signals, passMark: int): Scored
  {
    if sig.subjects.Some? then FailFactor(sig.subjects.value, passMark) else Scored(0.0, [])
  }

  function TrendPart(sig: Signals): Scored
  {
    if sig.terms.Some? then TrendFactor(sig.terms.value) else Scored(0.0, [])
  }

  /** The weighted sum of the five factor scores before rounding. */
  function RawScore(sig: Signals, passMark: int): real
  {
    AverageFactor(sig.mean, passMark).score * 0.30 + SubjectPart(sig, passMark).score * 0.25
      + TrendPart(sig).score * 0.25 + DeviationFactor(sig.classStat, sig.mean).score * 0.10
      + DropFactor(sig.biggestDrop).score * 0.10
  }

  /** The factor list in the order the factors are examined. */
  function FactorsOf(sig: Signals, passMark: int): seq<Factor>
  {
    AverageFactor(sig.mean, passMark).factors + SubjectPart(sig, passMark).factors + TrendPart(sig).factors
      + DeviationFactor(sig.classStat, sig.mean).factors + DropFactor(sig.biggestDrop).factors
  }

  /** The risk score: the weighted sum rounded to one decimal place and capped at 100. */
  function RiskScoreOf(sig: Signals, passMark: int): real
  {
    MinR(Round(RawScore(sig, passMark), 1), 100.0)
  }

  function AssessmentOf(id: string, name: string, className: Option<string>, sig: Signals, passMark: int): Assessment
  {
    var score := RiskScoreOf(sig, passMark);
    var factors := FactorsOf(sig, passMark);
    Assessment(id, name, score, LevelOf(score), SafeFloat(Some(sig.mean)), TrendDirection(sig.terms),
      factors, RecommendationOf(LevelOf(score), factors), className)
  }

  /** The body of the per-student loop: each factor adds its weighted score and its entries. */
  method AssessStudent(id: string, name: string, className: Option<string>, sig: Signals, passMark: int)
    returns (a: Assessment)
    ensures a == AssessmentOf(id, name, className, sig, passMark)
  {
    var factors: seq<Factor> := [];
    var riskScore := 0.0;
    var average := AverageFactor(sig.mean, passMark);
    factors := factors + average.factors;
    riskScore := riskScore + average.score * 0.30;
    var failed := SubjectPart(sig, passMark);
    factors := factors + failed.factors;
    riskScore := riskScore + failed.score * 0.25;
    var trend := TrendPart(sig);
    factors := factors + trend.factors;
    riskScore := riskScore + trend.score * 0.25;
    var deviation := DeviationFactor(sig.classStat, sig.mean);
    factors := factors + deviation.factors;
    riskScore := riskScore + deviation.score * 0.10;
    var drop := DropFactor(sig.biggestDrop);
    factors := factors + drop.factors;
    riskScore := riskScore + drop.score * 0.10;
    assert factors == FactorsOf(sig, passMark);
    assert riskScore == RawScore(sig, passMark);
    riskScore := MinR(Round(riskScore, 1), 100.0);
    var level := LevelOf(riskScore);
    a := Assessment(id, name, riskScore, level, SafeFloat(Some(sig.mean)), TrendDirection(sig.terms),
      factors, RecommendationOf(level, factors), className);
  }

  /** With a positive pass mark every factor score lies in [0, 100], so the risk score does too. */
  lemma RiskScoreWithin(sig: Signals, passMark: int)
    requires passMark > 0
    ensures 0.0 <= RawScore(sig, passMark) <= 100.0
    ensures 0.0 <= RiskScoreOf(sig, passMark) <= 100.0
  {
    AverageFactorSpec(sig.mean, passMark);
    if sig.subjects.Some? { FailFactorSpec(sig.subjects.value, passMark); }
    if sig.terms.Some? { TrendFactorSpec(sig.terms.value); }
    DeviationFactorSpec(sig.classStat, sig.mean);
    DropFactorSpec(sig.biggestDrop);
    RoundWithin(RawScore(sig, passMark), 1, 0, 100);
  }

  /** The character `s.lower().replace(" ", "_")` makes of `c`. */
  function SlugChar(c: char): char { if LowerChar(c) == ' ' then '_' else LowerChar(c) }

  lemma SlugIs(s: string, t: string)
    requires |s| == |t| && forall i :: 0 <= i < |s| ==> SlugChar(s[i]) == t[i]
    ensures Slug(s) == t
  {
  }

  /** The snake-cased factor names: every factor but the score trend has library advice. */
  lemma AverageKey()
    ensures Slug(AVERAGE) == "overall_average"
  {
    SlugIs(AVERAGE, "overall_average");
  }

  lemma FailedKey()
    ensures Slug(FAILED) == "subjects_failed"
  {
    SlugIs(FAILED, "subjects_failed");
  }

  /** The library entries the two heaviest factors map to. */
  lemma LibraryKeys()
    ensures "overall_average" in RECOMMENDATIONS && RECOMMENDATIONS["overall_average"] == OverallAverage
    ensures "subjects_failed" in RECOMMENDATIONS && RECOMMENDATIONS["subjects_failed"] == SubjectsFailed
  {
  }

  lemma TrendKey()
    ensures Slug(TREND) !in RECOMMENDATIONS
  {
    var k := Slug(TREND);
    assert |k| == 11;
    assert k[1] == 'c';
    assert "sudden_drop"[1] == 'u';
  }

  lemma RoundOf45()
    ensures Round(45.0, 1) == 45.0
  {
    assert Scale(45.0, 1) == 450 as real;
    RoundHalfEvenOfInt(450);
  }

  /** The weights of the entries each part can append. */
  lemma PartWeights(sig: Signals, passMark: int)
    requires passMark > 0
    ensures var avg := AverageFactor(sig.mean, passMark);
      |avg.factors| == 1 && avg.factors[0].weight == 30 && (avg.score > 0.0 <==> avg.factors[0].triggered)
    ensures var sub := SubjectPart(sig, passMark);
      |sub.factors| <= 1 && (forall f <- sub.factors :: f.weight == 25)
      && (sub.score > 0.0 <==> |sub.factors| == 1 && sub.factors[0].triggered)
    ensures forall f <- TrendPart(sig).factors :: f.weight == 25
    ensures forall f <- DeviationFactor(sig.classStat, sig.mean).factors :: f.weight == 10
    ensures forall f <- DropFactor(sig.biggestDrop).factors :: f.weight == 10
  {
    AverageFactorSpec(sig.mean, passMark);
    if sig.subjects.Some? { FailFactorSpec(sig.subjects.value, passMark); }
    if sig.terms.Some? { TrendFactorSpec(sig.terms.value); }
    DeviationFactorSpec(sig.classStat, sig.mean);
    DropFactorSpec(sig.biggestDrop);
  }

  /** A triggered entry at the head that weighs at least as much as every later entry is the one
   *  Python's `max` picks from the triggered entries. */
  lemma LeadIsTop(lead: Factor, later: seq<Factor>)
    requires lead.triggered
    requires forall f <- later :: f.weight <= lead.weight
    ensures var t := Filter([lead] + later, IsTriggered); |t| > 0 && t[TopIndex(t)] == lead
  {
    FilterAppend([lead], later, IsTriggered);
    assert Filter([lead], IsTriggered) == [lead];
    var t := Filter([lead] + later, IsTriggered);
    assert t[0] == lead;
  }

  /** Over the factor list's shape: the average entry (weight 30) first, at most one fail entry
   *  (weight 25), then entries of weight at most 25. */
  lemma TopOfParts(a: Factor, sub: seq<Factor>, later: seq<Factor>)
    requires a.weight == 30 && |sub| <= 1 && (forall f <- sub :: f.weight == 25) && (forall f <- later :: f.weight <= 25)
    requires a.triggered || (|sub| == 1 && sub[0].triggered)
    ensures var t := Filter([a] + sub + later, IsTriggered);
      |t| > 0 && t[TopIndex(t)] == (if a.triggered then a else sub[0])
  {
    if a.triggered {
      assert [a] + sub + later == [a] + (sub + later);
      LeadIsTop(a, sub + later);
      assert Filter([a] + sub + later, IsTriggered) == Filter([a] + (sub + later), IsTriggered);
    } else {
      FilterAppend([a], sub + later, IsTriggered);
      assert Filter([a], IsTriggered) == [];
      assert [a] + sub + later == [a] + (sub + later);
      assert sub + later == [sub[0]] + later;
      assert Filter([a] + sub + later, IsTriggered) == Filter([sub[0]] + later, IsTriggered);
      LeadIsTop(sub[0], later);
    }
  }

  /** Without an average below the pass mark and without a failed subject the raw score is at most
   *  45, so the level is not High. */
  lemma NotHighWithoutLeaders(sig: Signals, passMark: int)
    requires passMark > 0
    requires AverageFactor(sig.mean, passMark).score == 0.0 && SubjectPart(sig, passMark).score == 0.0
    ensures RiskScoreOf(sig, passMark) <= 45.0
  {
    RiskScoreWithin(sig, passMark);
    assert RawScore(sig, passMark) <= 45.0;
    RoundMonotone(RawScore(sig, passMark), 45.0, 1);
    RoundOf45();
  }

  /** The heaviest triggered factor is the average factor when it triggers, and otherwise the fail
   *  factor when that triggers. */
  lemma TopTriggered(sig: Signals, passMark: int)
    requires passMark > 0
    requires AverageFactor(sig.mean, passMark).score > 0.0 || SubjectPart(sig, passMark).score > 0.0
    ensures var t := Filter(FactorsOf(sig, passMark), IsTriggered);
      |t| > 0
      && t[TopIndex(t)].name == (if AverageFactor(sig.mean, passMark).score > 0.0 then AVERAGE else FAILED)
  {
    var avg := AverageFactor(sig.mean, passMark);
    var sub := SubjectPart(sig, passMark);
    var later := TrendPart(sig).factors + DeviationFactor(sig.classStat, sig.mean).factors
      + DropFactor(sig.biggestDrop).factors;
    PartWeights(sig, passMark);
    assert FactorsOf(sig, passMark) == [avg.factors[0]] + sub.factors + later;
    TopOfParts(avg.factors[0], sub.factors, later);
  }

  /** A High level always names the average or the failed subjects as its heaviest triggered
   *  factor, so it always gets their specific advice; the missing score-trend advice is never
   *  reached. */
  lemma HighRiskAdvice(id: string, name: string, className: Option<string>, sig: Signals, passMark: int)
    requires passMark > 0
    ensures var a := AssessmentOf(id, name, className, sig, passMark);
      a.level == High ==>
        a.recommendation == [GeneralHigh, OverallAverage] || a.recommendation == [GeneralHigh, SubjectsFailed]
  {
    var a := AssessmentOf(id, name, className, sig, passMark);
    if a.level == High {
      PartWeights(sig, passMark);
      if AverageFactor(sig.mean, passMark).score == 0.0 && SubjectPart(sig, passMark).score == 0.0 {
        NotHighWithoutLeaders(sig, passMark);
      } else {
        TopTriggered(sig, passMark);
        AverageKey();
        FailedKey();
        LibraryKeys();
      }
    }
  }

  // ---------------------------------------------------------------------------------------------
  // Class statistics

  /** The mean and sample deviation of one class's scores. */
  function StatOfClass(pct: seq<real>, disp: Dispersion): ClassStat
    requires |pct| > 1 && Lawful(disp)
  {
    ClassStat(MeanOf(pct), SampleStd(pct, disp).value)
  }

  /** `class_stats`: an entry per class group with more than one score. */
  function ClassStatsOf(groups: seq<(Cell, seq<real>)>, disp: Dispersion): map<Cell, ClassStat>
    requires Lawful(disp)
  {
    if groups == [] then map[]
    else
      var g := groups[|groups| - 1];
      var m := ClassStatsOf(groups[..|groups| - 1], disp);
      if |g.1| > 1 then m[g.0 := StatOfClass(g.1, disp)] else m
  }

  /** The loop over the class groups that fills `class_stats`. */
  method FillClassStats(groups: seq<(Cell, seq<real>)>, disp: Dispersion) returns (stats: map<Cell, ClassStat>)
    requires Lawful(disp)
    ensures stats == ClassStatsOf(groups, disp)
  {
    stats := map[];
    var k := 0;
    while k < |groups|
      invariant 0 <= k <= |groups|
      invariant stats == ClassStatsOf(groups[..k], disp)
    {
      assert groups[..k + 1][..k] == groups[..k];
      var (cls, pct) := groups[k];
      if |pct| > 1 {
        stats := stats[cls := StatOfClass(pct, disp)];
      }
      k := k + 1;
    }
    assert groups[..k] == groups;
  }

  /** Exactly the classes with more than one score have statistics. */
  lemma {:induction false} ClassStatsKeys(groups: seq<(Cell, seq<real>)>, disp: Dispersion)
    requires Lawful(disp)
    ensures forall c :: c in ClassStatsOf(groups, disp) <==>
      exists i :: 0 <= i < |groups| && groups[i].0 == c && |groups[i].1| > 1
  {
    if groups != [] {
      var init := groups[..|groups| - 1];
      ClassStatsKeys(init, disp);
      forall c ensures c in ClassStatsOf(groups, disp) <==> exists i :: 0 <= i < |groups| && groups[i].0 == c && |groups[i].1| > 1 {
        if c in ClassStatsOf(init, disp) {
          var i :| 0 <= i < |init| && init[i].0 == c && |init[i].1| > 1;
          assert groups[i] == init[i];
        }
        if exists i :: 0 <= i < |groups| && groups[i].0 == c && |groups[i].1| > 1 {
          var i :| 0 <= i < |groups| && groups[i].0 == c && |groups[i].1| > 1;
          if i < |groups| - 1 {
            assert init[i] == groups[i];
          }
        }
      }
    }
  }

  /** With distinct group keys each class's statistics are the mean and deviation of its own
   *  group, with a positive deviation exactly when its scores are not all equal. */
  lemma {:induction false} ClassStatsValues(groups: seq<(Cell, seq<real>)>, disp: Dispersion)
    requires Lawful(disp)
    requires forall i, j :: 0 <= i < j < |groups| ==> groups[i].0 != groups[j].0
    ensures forall i :: 0 <= i < |groups| && |groups[i].1| > 1 ==>
      groups[i].0 in ClassStatsOf(groups, disp)
      && ClassStatsOf(groups, disp)[groups[i].0] == StatOfClass(groups[i].1, disp)
      && (ClassStatsOf(groups, disp)[groups[i].0].std > 0.0 <==> !Constant(groups[i].1))
  {
    if groups != [] {
      var init := groups[..|groups| - 1];
      var g := groups[|groups| - 1];
      ClassStatsValues(init, disp);
      forall i | 0 <= i < |groups| && |groups[i].1| > 1
        ensures groups[i].0 in ClassStatsOf(groups, disp) && ClassStatsOf(groups, disp)[groups[i].0] == StatOfClass(groups[i].1, disp)
      {
        if i < |groups| - 1 {
          assert init[i] == groups[i];
          assert groups[i].0 != g.0;
        }
      }
    }
  }

  /** The lookup as written: `str(first[class_col]) in class_stats`, while the keys are the raw
   *  class values. */
  function ClassLookupAsWritten(stats: map<Cell, ClassStat>, first: Cell): Option<ClassStat>
  {
    var key := Str(CellString(first));
    if key in stats then Some(stats[key]) else None
  }

  /** The lookup by the class value itself, which the model uses. */
  function ClassLookup(stats: map<Cell, ClassStat>, first: Cell): Option<ClassStat>
  {
    if first in stats then Some(stats[first]) else None
  }

  /** With numeric class labels the lookup as written never finds the student's class, so the
   *  class-deviation factor is never appended; the lookup by value finds it. */
  lemma NumericClassNeverFound(stats: map<Cell, ClassStat>, x: real)
    requires forall c :: c in stats ==> c.Num?
    ensures ClassLookupAsWritten(stats, Num(x)) == None
    ensures Num(x) in stats ==> ClassLookup(stats, Num(x)) == Some(stats[Num(x)])
  {
  }

  /** For text labels the two lookups agree. */
  lemma TextClassLookupAgrees(stats: map<Cell, ClassStat>, s: string)
    ensures ClassLookupAsWritten(stats, Str(s)) == ClassLookup(stats, Str(s))
  {
  }

  // ---------------------------------------------------------------------------------------------
  // One student's rows

  /** The columns the engine found. */
  datatype Columns = Columns(student: string, subject: Option<string>, term: Option<string>,
    className: Option<string>, name: Option<string>)

  function ColumnsOf(columns: seq<string>, student: string): Columns
  {
    Columns(student, FindCol(columns, SUBJECT_ALIASES), FindCol(columns, TERM_ALIASES),
      FindCol(columns, PROFILE_CLASS_ALIASES), FindCol(columns, NAME_ALIASES))
  }

  /** The per-subject score series of the drop scan; none without term and subject columns or
   *  with fewer than two distinct term values (a missing term counts as one). */
  function DropSeries(sdf: seq<Row>, cols: Columns): Option<seq<(Cell, seq<Option<real>>)>>
  {
    if cols.term.Some? && cols.subject.Some? && |Distinct(Column(sdf, cols.term.value))| >= 2 then
      Some(SubjectSeries(sdf, cols.subject.value, cols.term.value))
    else None
  }

  function SignalsOf(sdf: seq<Row>, cols: Columns, stats: map<Cell, ClassStat>): Signals
    requires |sdf| > 0 && |Pcts(sdf)| > 0
  {
    var series := DropSeries(sdf, cols);
    Signals(MeanOf(Pcts(sdf)),
      if cols.subject.Some? then Some(GroupMeans(sdf, cols.subject.value)) else None,
      if cols.term.Some? then Some(GroupMeans(sdf, cols.term.value)) else None,
      if cols.className.Some? then ClassLookup(stats, Get(sdf[0], cols.className.value)) else None,
      if series.Some? then Some(ScanSeries(series.value, NO_DROP).amount) else None)
  }

  /** The signals of one student, running the drop scan when it applies. */
  method StudentSignals(sdf: seq<Row>, cols: Columns, stats: map<Cell, ClassStat>) returns (sig: Signals)
    requires |sdf| > 0 && |Pcts(sdf)| > 0
    ensures sig == SignalsOf(sdf, cols, stats)
  {
    var series := DropSeries(sdf, cols);
    var biggest: Option<real> := None;
    if series.Some? {
      var d := BiggestDrop(series.value);
      biggest := Some(d.amount);
    }
    sig := Signals(MeanOf(Pcts(sdf)),
      if cols.subject.Some? then Some(GroupMeans(sdf, cols.subject.value)) else None,
      if cols.term.Some? then Some(GroupMeans(sdf, cols.term.value)) else None,
      if cols.className.Some? then ClassLookup(stats, Get(sdf[0], cols.className.value)) else None,
      biggest);
  }

  /** The name column's value in the student's first row, else the id itself. */
  function NameOf(sdf: seq<Row>, cols: Columns, id: Cell): string
    requires |sdf| > 0
  {
    if cols.name.Some? then CellString(Get(sdf[0], cols.name.value)) else CellString(id)
  }

  function ClassNameOf(sdf: seq<Row>, cols: Columns): Option<string>
    requires |sdf| > 0
  {
    if cols.className.Some? then Some(CellString(Get(sdf[0], cols.className.value))) else None
  }

  /** The assessment of one student id: none when the student has no score. */
  function AssessmentCell(rows: seq<Row>, cols: Columns, stats: map<Cell, ClassStat>, id: Cell, passMark: int): seq<Assessment>
  {
    var sdf := RowsWhere(rows, cols.student, id);
    if |Pcts(sdf)| == 0 then []
    else [AssessmentOf(CellString(id), NameOf(sdf, cols, id), ClassNameOf(sdf, cols), SignalsOf(sdf, cols, stats), passMark)]
  }

  function AssessmentsOf(rows: seq<Row>, cols: Columns, stats: map<Cell, ClassStat>, ids: seq<Cell>, passMark: int): seq<Assessment>
  {
    if ids == [] then []
    else AssessmentsOf(rows, cols, stats, ids[..|ids| - 1], passMark) + AssessmentCell(rows, cols, stats, ids[|ids| - 1], passMark)
  }

  /** The per-student loop. */
  method AssessStudents(rows: seq<Row>, cols: Columns, stats: map<Cell, ClassStat>, ids: seq<Cell>, passMark: int)
    returns (students: seq<Assessment>)
    ensures students == AssessmentsOf(rows, cols, stats, ids, passMark)
  {
    students := [];
    var k := 0;
    while k < |ids|
      invariant 0 <= k <= |ids|
      invariant students == AssessmentsOf(rows, cols, stats, ids[..k], passMark)
    {
      assert ids[..k + 1][..k] == ids[..k];
      var sid := ids[k];
      var sdf := RowsWhere(rows, cols.student, sid);
      ghost var cell := AssessmentCell(rows, cols, stats, sid, passMark);
      assert AssessmentsOf(rows, cols, stats, ids[..k + 1], passMark) == students + cell;
      if |Pcts(sdf)| > 0 {
        var sig := StudentSignals(sdf, cols, stats);
        var a := AssessStudent(CellString(sid), NameOf(sdf, cols, sid), ClassNameOf(sdf, cols), sig, passMark);
        assert cell == [a];
        students := students + [a];
      } else {
        assert cell == [];
        students := students + [];
      }
      k := k + 1;
    }
    assert ids[..k] == ids;
  }

  /** Every assessment has a score in [0, 100], the level of that score and a rounded mean. */
  lemma {:induction false} AssessmentsWellFormed(rows: seq<Row>, cols: Columns, stats: map<Cell, ClassStat>, ids: seq<Cell>, passMark: int)
    requires passMark > 0
    ensures forall a <- AssessmentsOf(rows, cols, stats, ids, passMark) ::
      0.0 <= a.riskScore <= 100.0 && a.level == LevelOf(a.riskScore) && a.overallMean.Some?
  {
    if ids != [] {
      AssessmentsWellFormed(rows, cols, stats, ids[..|ids| - 1], passMark);
      var sdf := RowsWhere(rows, cols.student, ids[|ids| - 1]);
      if |Pcts(sdf)| > 0 {
        RiskScoreWithin(SignalsOf(sdf, cols, stats), passMark);
      }
    }
  }

  /** A student's scores are among the table's scores. */
  lemma {:induction false} PctsOfRowsWhere(rows: seq<Row>, col: string, key: Cell)
    ensures |Pcts(RowsWhere(rows, col, key))| <= |Pcts(rows)|
  {
    if rows != [] {
      var init := rows[..|rows| - 1];
      var last := rows[|rows| - 1];
      PctsOfRowsWhere(init, col, key);
      assert rows == init + [last];
      PctsAppend(init, [last]);
      PctsAppend(RowsWhere(init, col, key), if Get(last, col) == key then [last] else []);
    }
  }

  /** A table without scores assesses nobody. */
  lemma {:induction false} NoScoresNoAssessments(rows: seq<Row>, cols: Columns, stats: map<Cell, ClassStat>, ids: seq<Cell>, passMark: int)
    requires Pcts(rows) == []
    ensures AssessmentsOf(rows, cols, stats, ids, passMark) == []
  {
    if ids != [] {
      NoScoresNoAssessments(rows, cols, stats, ids[..|ids| - 1], passMark);
      PctsOfRowsWhere(rows, cols.student, ids[|ids| - 1]);
    }
  }

  // ---------------------------------------------------------------------------------------------
  // Filter, order and summary

  /** Below the school average and below the pass mark, by the rounded mean. */
  predicate AtRisk(a: Assessment, average: real, passMark: int)
  {
    a.overallMean.Some? && a.overallMean.value < average && a.overallMean.value < passMark as real
  }

  function BelowBoth(students: seq<Assessment>, average: real, passMark: int): (r: seq<Assessment>)
    ensures |r| <= |students|
  {
    if students == [] then []
    else
      var last := students[|students| - 1];
      BelowBoth(students[..|students| - 1], average, passMark) + (if AtRisk(last, average, passMark) then [last] else [])
  }

  /** The filter applies only when there is a school average. */
  function KeepAtRisk(students: seq<Assessment>, average: Option<real>, passMark: int): seq<Assessment>
  {
    if average.None? then students else BelowBoth(students, average.value, passMark)
  }

  /** The filter keeps exactly the students below both bounds. */
  lemma {:induction false} BelowBothSpec(students: seq<Assessment>, average: real, passMark: int)
    ensures forall a :: a in BelowBoth(students, average, passMark) <==> a in students && AtRisk(a, average, passMark)
  {
    if students != [] {
      var init := students[..|students| - 1];
      BelowBothSpec(init, average, passMark);
      assert students == init + [students[|students| - 1]];
    }
  }

  predicate RiskDescLe(a: Assessment, b: Assessment) { a.riskScore >= b.riskScore }

  lemma RiskDescTotalPreorder()
    ensures TotalPreorder(RiskDescLe)
  {
  }

  predicate IsHigh(a: Assessment) { a.level == High }
  predicate IsMedium(a: Assessment) { a.level == Medium }
  predicate IsLow(a: Assessment) { a.level == Low }

  lemma {:induction false} LevelCounts(s: seq<Assessment>)
    ensures CountWhere(s, IsHigh) + CountWhere(s, IsMedium) + CountWhere(s, IsLow) == |s|
  {
    if s != [] {
      LevelCounts(s[..|s| - 1]);
    }
  }

  datatype Summary = Summary(total: nat, highRisk: nat, mediumRisk: nat, lowRisk: nat,
    schoolAverage: Option<real>, highRiskPct: real)

  function SummaryOf(students: seq<Assessment>, average: Option<real>): Summary
  {
    var high := CountWhere(students, IsHigh);
    Summary(|students|, high, CountWhere(students, IsMedium), CountWhere(students, IsLow), average,
      if |students| > 0 then Round(high as real / |students| as real * 100.0, 2) else 0.0)
  }

  datatype RiskReport = NoStudentColumn | Report(students: seq<Assessment>, summary: Summary)

  /** The kept students, riskiest first, with their summary. */
  function ReportFrom(students: seq<Assessment>, average: Option<real>, passMark: int): RiskReport
  {
    var ranked := SortBy(KeepAtRisk(students, average, passMark), RiskDescLe);
    Report(ranked, SummaryOf(ranked, average))
  }

  /** The report lists the kept students, riskiest first and equal scores in assessment order. */
  lemma ReportOrder(students: seq<Assessment>, average: Option<real>, passMark: int)
    ensures var r := ReportFrom(students, average, passMark);
      var kept := KeepAtRisk(students, average, passMark);
      && multiset(r.students) == multiset(kept)
      && SortedBy(r.students, RiskDescLe)
      && (forall x :: Tied(r.students, x, RiskDescLe) == Tied(kept, x, RiskDescLe))
  {
    var kept := KeepAtRisk(students, average, passMark);
    SortByPerm(kept, RiskDescLe);
    RiskDescTotalPreorder();
    SortBySorted(kept, RiskDescLe);
    forall x ensures Tied(SortBy(kept, RiskDescLe), x, RiskDescLe) == Tied(kept, x, RiskDescLe) {
      SortByStable(kept, x, RiskDescLe);
    }
  }

  /** The level counts add up to the total, and the high-risk share is a percentage, 0 for an
   *  empty list. */
  lemma SummaryCounts(students: seq<Assessment>, average: Option<real>)
    ensures var m := SummaryOf(students, average);
      && m.total == |students|
      && m.highRisk + m.mediumRisk + m.lowRisk == m.total
      && (m.total == 0 ==> m.highRiskPct == 0.0)
      && 0.0 <= m.highRiskPct <= 100.0
  {
    LevelCounts(students);
    if |students| > 0 {
      var high := CountWhere(students, IsHigh);
      var n := |students| as real;
      assert high as real <= n;
      DivWithin(high as real, 0.0, 1.0, n);
      RoundWithin(high as real / n * 100.0, 2, 0, 100);
    }
  }

  function ClassStatsFor(rows: seq<Row>, cols: Columns, disp: Dispersion): map<Cell, ClassStat>
    requires Lawful(disp)
  {
    if cols.className.Some? then ClassStatsOf(Groups(rows, cols.className.value), disp) else map[]
  }

  /** `compute_risk_scores`. */
  function RiskReportOf(df: Frame, passMark: int, disp: Dispersion): RiskReport
    requires Lawful(disp)
  {
    ReportOfTable(EnsurePercentage(df, RISK_SCORE_ALIASES, RISK_MAX_ALIASES), passMark, disp)
  }

  /** Everything after the percentage column is in place. */
  function ReportOfTable(f: Frame, passMark: int, disp: Dispersion): RiskReport
    requires Lawful(disp)
  {
    match FindCol(f.columns, STUDENT_ALIASES)
    case None => NoStudentColumn
    case Some(sc) =>
      var cols := ColumnsOf(f.columns, sc);
      var average := SafeFloat(Mean(Pcts(f.rows)));
      var all := AssessmentsOf(f.rows, cols, ClassStatsFor(f.rows, cols, disp), PresentUnique(f.rows, sc), passMark);
      ReportFrom(all, average, passMark)
  }

  method ComputeRiskScores(df: Frame, passMark: int, disp: Dispersion) returns (r: RiskReport)
    requires Lawful(disp)
    ensures r == RiskReportOf(df, passMark, disp)
  {
    var f := EnsurePercentage(df, RISK_SCORE_ALIASES, RISK_MAX_ALIASES);
    r := ScoreTable(f, passMark, disp);
  }

  /** The body of `compute_risk_scores` after the percentage column is in place. */
  method ScoreTable(f: Frame, passMark: int, disp: Dispersion) returns (r: RiskReport)
    requires Lawful(disp)
    ensures r == ReportOfTable(f, passMark, disp)
  {
    var sc := FindCol(f.columns, STUDENT_ALIASES);
    if sc.None? {
      return NoStudentColumn;
    }
    var cols := ColumnsOf(f.columns, sc.value);
    var average := SafeFloat(Mean(Pcts(f.rows)));
    var stats: map<Cell, ClassStat> := map[];
    if cols.className.Some? {
      stats := FillClassStats(Groups(f.rows, cols.className.value), disp);
    }
    assert stats == ClassStatsFor(f.rows, cols, disp);
    var students := AssessStudents(f.rows, cols, stats, PresentUnique(f.rows, sc.value), passMark);
    ghost var all := students;
    students := KeepAtRisk(students, average, passMark);
    students := SortBy(students, RiskDescLe);
    r := Report(students, SummaryOf(students, average));
    assert r == ReportFrom(all, average, passMark);
  }

  /** Every listed student is below both bounds, and keeps the score and level it was assessed
   *  with. */
  lemma ListedStudents(all: seq<Assessment>, average: Option<real>, passMark: int)
    requires forall a <- all :: 0.0 <= a.riskScore <= 100.0 && a.level == LevelOf(a.riskScore)
    requires average.None? ==> all == []
    ensures forall a <- ReportFrom(all, average, passMark).students ::
      && average.Some? && AtRisk(a, average.value, passMark)
      && 0.0 <= a.riskScore <= 100.0 && a.level == LevelOf(a.riskScore)
  {
    var kept := KeepAtRisk(all, average, passMark);
    ReportOrder(all, average, passMark);
    if average.Some? {
      BelowBothSpec(all, average.value, passMark);
    }
    forall a <- ReportFrom(all, average, passMark).students
      ensures average.Some? && AtRisk(a, average.value, passMark)
        && 0.0 <= a.riskScore <= 100.0 && a.level == LevelOf(a.riskScore)
    {
      assert a in multiset(ReportFrom(all, average, passMark).students);
      assert a in kept;
    }
  }

  /** What a report promises: riskiest first, level counts adding up to the total, and every
   *  listed student below the school average and the pass mark with a score in [0, 100] and the
   *  level of that score. */
  predicate Listed(r: RiskReport, passMark: int)
  {
    r.Report? ==>
      && SortedBy(r.students, RiskDescLe)
      && r.summary.highRisk + r.summary.mediumRisk + r.summary.lowRisk == r.summary.total == |r.students|
      && (forall a <- r.students ::
            && r.summary.schoolAverage.Some? && AtRisk(a, r.summary.schoolAverage.value, passMark)
            && 0.0 <= a.riskScore <= 100.0 && a.level == LevelOf(a.riskScore))
  }

  /** Without a student column the report is the empty one; otherwise every listed student is
   *  below the school average and the pass mark (a table without scores lists nobody), has a risk
   *  score in [0, 100] with its level, and the list is ordered riskiest first. */
  lemma RiskReportSpec(df: Frame, passMark: int, disp: Dispersion)
    requires Lawful(disp) && passMark > 0
    ensures var f := EnsurePercentage(df, RISK_SCORE_ALIASES, RISK_MAX_ALIASES);
      var r := RiskReportOf(df, passMark, disp);
      && (r.NoStudentColumn? <==> FindCol(f.columns, STUDENT_ALIASES).None?)
      && Listed(r, passMark)
  {
    TableReportSpec(EnsurePercentage(df, RISK_SCORE_ALIASES, RISK_MAX_ALIASES), passMark, disp);
  }

  lemma TableReportSpec(f: Frame, passMark: int, disp: Dispersion)
    requires Lawful(disp) && passMark > 0
    ensures var r := ReportOfTable(f, passMark, disp);
      && (r.NoStudentColumn? <==> FindCol(f.columns, STUDENT_ALIASES).None?)
      && Listed(r, passMark)
  {
    var r := ReportOfTable(f, passMark, disp);
    if r.Report? {
      var sc := FindCol(f.columns, STUDENT_ALIASES).value;
      var cols := ColumnsOf(f.columns, sc);
      var average := SafeFloat(Mean(Pcts(f.rows)));
      var stats := ClassStatsFor(f.rows, cols, disp);
      var ids := PresentUnique(f.rows, sc);
      var all := AssessmentsOf(f.rows, cols, stats, ids, passMark);
      assert r == ReportFrom(all, average, passMark);
      ReportOrder(all, average, passMark);
      SummaryCounts(r.students, average);
      AssessmentsWellFormed(f.rows, cols, stats, ids, passMark);
      if average.None? {
        NoScoresNoAssessments(f.rows, cols, stats, ids, passMark);
      }
      ListedStudents(all, average, passMark);
    }
  }
}
