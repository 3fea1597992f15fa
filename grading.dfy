/** The universal A–F grading model: band lookup with clamping, the band legend, the mean grade
 *  of a list of scores, and the calendar order of term labels. */
module Grading {
  import opened Wrappers
  import opened Text
  import opened Seqs
  import opened Numeric
  import opened Frames

  datatype Band = Band(min: real, letter: string, points: nat, description: string)

  /** Ordered high to low; the last band starts at 0 so every clamped score has a band. */
  const UNIVERSAL_GRADES: seq<Band> := [
    Band(80.0, "A", 6, "Excellent"),
    Band(70.0, "B", 5, "Very Good"),
    Band(60.0, "C", 4, "Good"),
    Band(50.0, "D", 3, "Satisfactory"),
    Band(40.0, "E", 2, "Needs Improvement"),
    Band(0.0, "F", 1, "Poor")
  ]

  function Clamp(v: real): (r: real)
    ensures 0.0 <= r <= 100.0
    ensures 0.0 <= v <= 100.0 ==> r == v
  {
    MaxR(0.0, MinR(100.0, v))
  }

  /** `_clamp_score`: None for a missing or unparseable score, else the value clamped to [0, 100]. */
  function ClampScore(score: Cell): (r: Option<real>)
    ensures r.Some? ==> 0.0 <= r.value <= 100.0
    ensures r.None? <==> ToNumeric(score).None?
    ensures r.Some? ==> r.value == Clamp(ToNumeric(score).value)
  {
    match ToNumeric(score)
    case None => None
    case Some(v) => Some(Clamp(v))
  }

  /** The grade record: letter, points, description, and the score rounded to one place (absent
   *  when there was no score). */
  datatype GradeInfo = GradeInfo(letter: string, points: nat, description: string, score: Option<real>)

  /** The first band whose minimum the value reaches: the early-return search of the source. */
  function FirstBand(bands: seq<Band>, v: real): (r: Option<Band>)
    ensures r.Some? ==> r.value in bands && v >= r.value.min
    ensures r.None? <==> forall i :: 0 <= i < |bands| ==> v < bands[i].min
  {
    if bands == [] then None
    else if v >= bands[0].min then Some(bands[0])
    else FirstBand(bands[1..], v)
  }

  const NO_SCORE := GradeInfo("-", 0, "No score", None)

  /** `get_universal_grade`. */
  function UniversalGrade(score: Cell): GradeInfo
  {
    match ClampScore(score)
    case None => NO_SCORE
    case Some(v) =>
      match FirstBand(UNIVERSAL_GRADES, v)
      case Some(b) => GradeInfo(b.letter, b.points, b.description, Some(Round(v, 1)))
      case None => GradeInfo("F", 1, "Poor", Some(Round(v, 1)))
  }

  /** `get_grade_label`. */
  function GradeLabel(score: Cell): string { UniversalGrade(score).letter }

  /** `get_grade_points`. */
  function GradePoints(score: Cell): nat { UniversalGrade(score).points }

  /** The band a clamped value in [0, 100] falls in, written out as thresholds. */
  function BandOf(v: real): Band
  {
    if v >= 80.0 then UNIVERSAL_GRADES[0]
    else if v >= 70.0 then UNIVERSAL_GRADES[1]
    else if v >= 60.0 then UNIVERSAL_GRADES[2]
    else if v >= 50.0 then UNIVERSAL_GRADES[3]
    else if v >= 40.0 then UNIVERSAL_GRADES[4]
    else UNIVERSAL_GRADES[5]
  }

  /** The early-return search always finds a band for a clamped value, so the fallback after the
   *  loop is unreachable, and the band found is the one the thresholds name. */
  lemma FirstBandIsBandOf(v: real)
    requires 0.0 <= v <= 100.0
    ensures FirstBand(UNIVERSAL_GRADES, v) == Some(BandOf(v))
  {
    var g := UNIVERSAL_GRADES;
    if v < 80.0 {
      assert FirstBand(g, v) == FirstBand(g[1..], v);
      if v < 70.0 {
        assert FirstBand(g[1..], v) == FirstBand(g[2..], v) by { assert g[1..][1..] == g[2..]; }
        if v < 60.0 {
          assert FirstBand(g[2..], v) == FirstBand(g[3..], v) by { assert g[2..][1..] == g[3..]; }
          if v < 50.0 {
            assert FirstBand(g[3..], v) == FirstBand(g[4..], v) by { assert g[3..][1..] == g[4..]; }
            if v < 40.0 {
              assert FirstBand(g[4..], v) == FirstBand(g[5..], v) by { assert g[4..][1..] == g[5..]; }
            }
          }
        }
      }
    }
  }

  /** Any present score gets a band: missing or unparseable ones get "-" with 0 points; present
   *  ones are clamped first and graded by the thresholds 80/70/60/50/40, and the score reported is
   *  the clamped value rounded to one place, which stays in [0, 100]. */
  lemma UniversalGradeSpec(score: Cell)
    ensures var g := UniversalGrade(score);
      && (ToNumeric(score).None? ==> g == NO_SCORE)
      && (ToNumeric(score).Some? ==>
            var v := Clamp(ToNumeric(score).value);
            var b := BandOf(v);
            && g == GradeInfo(b.letter, b.points, b.description, Some(Round(v, 1)))
            && 0.0 <= g.score.value <= 100.0)
  {
    if ToNumeric(score).Some? {
      var v := Clamp(ToNumeric(score).value);
      FirstBandIsBandOf(v);
      RoundWithin(v, 1, 0, 100);
    }
  }

  /** The letter and the points of a present score, threshold by threshold, in both directions. */
  lemma GradeLabelThresholds(score: Cell)
    requires ToNumeric(score).Some?
    ensures var v := Clamp(ToNumeric(score).value);
      && (GradeLabel(score) == "A" <==> v >= 80.0)
      && (GradeLabel(score) == "B" <==> 70.0 <= v < 80.0)
      && (GradeLabel(score) == "C" <==> 60.0 <= v < 70.0)
      && (GradeLabel(score) == "D" <==> 50.0 <= v < 60.0)
      && (GradeLabel(score) == "E" <==> 40.0 <= v < 50.0)
      && (GradeLabel(score) == "F" <==> v < 40.0)
      && 1 <= GradePoints(score) <= 6
  {
    UniversalGradeSpec(score);
  }

  /** Out-of-range scores are clamped, so they get band A or F and never an error. */
  lemma OutOfRangeGetsAOrF(x: real)
    ensures x > 100.0 ==> GradeLabel(Num(x)) == "A" && GradePoints(Num(x)) == 6
    ensures x < 0.0 ==> GradeLabel(Num(x)) == "F" && GradePoints(Num(x)) == 1
  {
    UniversalGradeSpec(Num(x));
  }

  /** Points never fall as the score rises. */
  lemma GradePointsMonotone(x: real, y: real)
    requires x <= y
    ensures GradePoints(Num(x)) <= GradePoints(Num(y))
  {
    PointsOfNumber(x);
    PointsOfNumber(y);
    assert Clamp(x) <= Clamp(y);
  }

  lemma PointsOfNumber(x: real)
    ensures GradePoints(Num(x)) == BandOf(Clamp(x)).points
  {
    assert ToNumeric(Num(x)) == Some(x);
    UniversalGradeSpec(Num(x));
  }

  // ---------------------------------------------------------------------------------------------
  // `get_all_grade_thresholds`

  datatype Threshold = Threshold(min: real, max: real, letter: string, points: nat, description: string)

  /** The legend entry of band `i`: the first band tops out at 100; every other one just below the
   *  minimum of the band above it. */
  function ThresholdAt(i: nat): Threshold
    requires i < |UNIVERSAL_GRADES|
  {
    var b := UNIVERSAL_GRADES[i];
    var max := if i == 0 then 100.0 else UNIVERSAL_GRADES[i - 1].min - 0.01;
    Threshold(b.min, Round(max, 2), b.letter, b.points, b.description)
  }

  /** `get_all_grade_thresholds`: one legend entry per band, appended in band order. */
  method GetAllGradeThresholds() returns (thresholds: seq<Threshold>)
    ensures |thresholds| == |UNIVERSAL_GRADES|
    ensures forall i :: 0 <= i < |thresholds| ==> thresholds[i] == ThresholdAt(i)
  {
    thresholds := [];
    var idx := 0;
    while idx < |UNIVERSAL_GRADES|
      invariant 0 <= idx <= |UNIVERSAL_GRADES|
      invariant |thresholds| == idx
      invariant forall i :: 0 <= i < idx ==> thresholds[i] == ThresholdAt(i)
    {
      var b := UNIVERSAL_GRADES[idx];
      var maxScore := if idx == 0 then 100.0 else UNIVERSAL_GRADES[idx - 1].min - 0.01;
      thresholds := thresholds + [Threshold(b.min, Round(maxScore, 2), b.letter, b.points, b.description)];
      idx := idx + 1;
    }
  }

  lemma RoundOfCents(c: int)
    ensures Round(c as real / 100.0, 2) == c as real / 100.0
  {
    assert Scale(c as real / 100.0, 2) == c as real;
    RoundHalfEvenOfInt(c);
  }

  /** The legend runs from A down to F; the first entry tops out at 100, each later one ends 0.01
   *  below the minimum of the entry before it, and every entry's range is non-empty. */
  lemma ThresholdsOrdered()
    ensures ThresholdAt(0).max == 100.0
    ensures forall i :: 1 <= i < |UNIVERSAL_GRADES| ==> ThresholdAt(i).max == ThresholdAt(i - 1).min - 0.01
    ensures forall i :: 0 <= i < |UNIVERSAL_GRADES| ==> ThresholdAt(i).min < ThresholdAt(i).max
    ensures forall i :: 1 <= i < |UNIVERSAL_GRADES| ==> ThresholdAt(i).max < ThresholdAt(i - 1).min
  {
    RoundOfCents(10000);
    RoundOfCents(7999);
    RoundOfCents(6999);
    RoundOfCents(5999);
    RoundOfCents(4999);
    RoundOfCents(3999);
    assert 10000 as real / 100.0 == 100.0;
    assert 7999 as real / 100.0 == 80.0 - 0.01;
    assert 6999 as real / 100.0 == 70.0 - 0.01;
    assert 5999 as real / 100.0 == 60.0 - 0.01;
    assert 4999 as real / 100.0 == 50.0 - 0.01;
    assert 3999 as real / 100.0 == 40.0 - 0.01;
  }

  // ---------------------------------------------------------------------------------------------
  // `get_mean_grade`

  /** The clamped present scores, in order. */
  function ValidScores(scores: seq<Cell>): (r: seq<real>)
    ensures forall i :: 0 <= i < |r| ==> 0.0 <= r[i] <= 100.0
  {
    if scores == [] then []
    else
      var v := ClampScore(scores[|scores| - 1]);
      ValidScores(scores[..|scores| - 1]) + (if v.Some? then [v.value] else [])
  }

  datatype MeanGrade = MeanGrade(mean: Option<real>, letter: string, points: nat, info: Option<GradeInfo>)

  /** The mean grade of a list: nothing present gives mean None, "-" and 0 points; otherwise the
   *  mean of the clamped values, rounded to two places, with the grade of the unrounded mean. */
  function MeanGradeOf(scores: seq<Cell>): MeanGrade
  {
    var valid := ValidScores(scores);
    if valid == [] then MeanGrade(None, "-", 0, None)
    else
      var m := MeanOf(valid);
      var g := UniversalGrade(Num(m));
      MeanGrade(Some(Round(m, 2)), g.letter, g.points, Some(g))
  }

  /** `get_mean_grade`: collects the clamped present scores in a loop, then grades their mean. */
  method GetMeanGrade(scores: seq<Cell>) returns (r: MeanGrade)
    ensures r == MeanGradeOf(scores)
  {
    var valid: seq<real> := [];
    var i := 0;
    while i < |scores|
      invariant 0 <= i <= |scores|
      invariant valid == ValidScores(scores[..i])
    {
      var value := ClampScore(scores[i]);
      assert scores[..i + 1][..i] == scores[..i];
      if value.Some? {
        valid := valid + [value.value];
      }
      i := i + 1;
    }
    assert scores[..i] == scores;
    if valid == [] {
      return MeanGrade(None, "-", 0, None);
    }
    var mean := MeanOf(valid);
    var info := UniversalGrade(Num(mean));
    r := MeanGrade(Some(Round(mean, 2)), info.letter, info.points, Some(info));
  }

  /** The mean is None exactly when no score is present, and otherwise lies in [0, 100]. */
  lemma MeanGradeSpec(scores: seq<Cell>)
    ensures var r := MeanGradeOf(scores);
      && (r.mean.None? <==> ValidScores(scores) == [])
      && (r.mean.None? ==> r.letter == "-" && r.points == 0)
      && (r.mean.Some? ==> 0.0 <= r.mean.value <= 100.0 && 1 <= r.points <= 6)
  {
    var valid := ValidScores(scores);
    if valid != [] {
      var m := MeanOf(valid);
      MeanWithin(valid, 0.0, 100.0);
      RoundWithin(m, 2, 0, 100);
      UniversalGradeSpec(Num(m));
    }
  }

  lemma {:induction false} ValidScoresEmpty(scores: seq<Cell>)
    ensures ValidScores(scores) == [] <==> forall i :: 0 <= i < |scores| ==> ToNumeric(scores[i]).None?
  {
    if scores != [] {
      var p, last := scores[..|scores| - 1], scores[|scores| - 1];
      ValidScoresEmpty(p);
      var tail := if ClampScore(last).Some? then [ClampScore(last).value] else [];
      assert ValidScores(scores) == ValidScores(p) + tail;
      assert ValidScores(p) + tail == [] <==> ValidScores(p) == [] && tail == [];
      NoneNumericSnoc(scores);
    }
  }

  /** Every cell of a non-empty list fails to parse exactly when every cell but the last does and
   *  the last does too. */
  lemma NoneNumericSnoc(scores: seq<Cell>)
    requires scores != []
    ensures (forall i :: 0 <= i < |scores| ==> ToNumeric(scores[i]).None?) <==>
      NoneNumeric(scores[..|scores| - 1]) && ToNumeric(scores[|scores| - 1]).None?
  {
    var p := scores[..|scores| - 1];
    assert forall i :: 0 <= i < |p| ==> p[i] == scores[i];
  }

  predicate NoneNumeric(scores: seq<Cell>)
  {
    forall i :: 0 <= i < |scores| ==> ToNumeric(scores[i]).None?
  }

  // ---------------------------------------------------------------------------------------------
  // `sort_terms`

  /** The sort key of a term label: the fixed order of "Term 1".."Term 3", else the last integer
   *  in the label, else 99. */
  function TermKey(term: string): nat
  {
    var t := Trim(term);
    if t == "Term 1" then 1
    else if t == "Term 2" then 2
    else if t == "Term 3" then 3
    else
      var nums := DigitRuns(t);
      if nums == [] then 99 else DigitsToNat(nums[|nums| - 1])
  }

  predicate TermLe(a: string, b: string) { TermKey(a) <= TermKey(b) }

  lemma TermLeTotalPreorder()
    ensures TotalPreorder(TermLe)
  {
  }

  /** `sort_terms`: a stable sort by `TermKey`. */
  function SortTerms(terms: seq<string>): seq<string>
  {
    SortBy(terms, TermLe)
  }

  /** `sort_terms` returns a permutation of its input in non-decreasing key order, keeps tied
   *  labels in input order, and is idempotent. */
  lemma SortTermsSpec(terms: seq<string>, x: string)
    ensures multiset(SortTerms(terms)) == multiset(terms)
    ensures forall i, j :: 0 <= i < j < |terms| ==> TermKey(SortTerms(terms)[i]) <= TermKey(SortTerms(terms)[j])
    ensures Tied(SortTerms(terms), x, TermLe) == Tied(terms, x, TermLe)
    ensures SortTerms(SortTerms(terms)) == SortTerms(terms)
  {
    TermLeTotalPreorder();
    SortByPerm(terms, TermLe);
    SortBySorted(terms, TermLe);
    SortByStable(terms, x, TermLe);
    SortByIdempotent(SortTerms(terms), TermLe);
  }

  lemma TermKeysOfLabels()
    ensures TermKey("Term 1") == 1 && TermKey("Term 2") == 2 && TermKey("Term 3") == 3
  {
    TrimNoop("Term 1");
    TrimNoop("Term 2");
    TrimNoop("Term 3");
  }

  lemma TermOrderOfLabels()
    ensures TermLe("Term 1", "Term 2") && !TermLe("Term 2", "Term 1")
    ensures TermLe("Term 2", "Term 3")
  {
    TermKeysOfLabels();
  }

  lemma SortTermsExample()
    ensures SortTerms(["Term 2", "Term 1", "Term 3"]) == ["Term 1", "Term 2", "Term 3"]
  {
    TermOrderOfLabels();
    var t1, t2, t3 := "Term 1", "Term 2", "Term 3";
    var s := [t2, t1, t3];
    assert s[..2] == [t2, t1] && s[..2][..1] == [t2] && s[..2][..1][..0] == [];
    assert SortBy([t2], TermLe) == [t2];
    assert Insert([t2], t1, TermLe) == [t1, t2] by { assert [t2][..0] == []; }
    assert SortBy(s[..2], TermLe) == [t1, t2];
    assert Insert([t1, t2], t3, TermLe) == [t1, t2, t3];
  }
}
