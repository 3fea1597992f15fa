/** The gap analysis engine: the gender gap overall and per subject (Welch t-test, Cohen's d and a
 *  95% interval for the difference of means), the class and the regional gap (a t-test for two
 *  groups, a one-way ANOVA for more), and the term gap. The t-test and the ANOVA are inputs; the
 *  effect sizes, means, intervals and orderings are computed here. */
module Gaps {
  import opened Wrappers
  import opened Seqs
  import opened Numeric
  import opened Frames
  import Text
  import Stats

  const GAP_SCORE_ALIASES: seq<string> := ["score", "marks", "mark", "total"]
  const GAP_MAX_ALIASES: seq<string> := ["max_score", "max_marks", "out_of"]
  const GENDER_ALIASES: seq<string> := ["gender", "sex"]
  const REGION_ALIASES: seq<string> := ["region", "county", "district", "zone", "province"]
  const MALE: seq<string> := ["male", "m", "boy"]
  const FEMALE: seq<string> := ["female", "f", "girl"]

  /** `_safe_float` of a computed number: every number computed here is finite, and is reported
   *  rounded to four decimal places. */
  function Safe(x: real): real { Round(x, 4) }

  /** `_safe_float` of a statistic from a test, where NaN (None here) stays missing. */
  function SafeOpt(v: Option<real>): (r: Option<real>)
    ensures r.Some? <==> v.Some?
  {
    if v.Some? then Some(Safe(v.value)) else None
  }

  lemma SafeMonotone(x: real, y: real)
    requires x <= y
    ensures Safe(x) <= Safe(y)
  {
    RoundMonotone(x, y, 4);
  }

  lemma SafeNonNegative(x: real)
    requires x >= 0.0
    ensures Safe(x) >= 0.0
  {
    assert Safe(0.0) == 0.0 by { assert Scale(0.0, 4) == 0.0; }
    SafeMonotone(0.0, x);
  }

  /** `scipy.stats.ttest_ind(a, b, equal_var=False)`: the statistic and the p-value, either NaN. */
  type TTestFn = (seq<real>, seq<real>) -> (Option<real>, Option<real>)

  /** `scipy.stats.f_oneway(*groups)`: the F statistic and the p-value, either NaN. */
  type FTestFn = seq<seq<real>> -> (Option<real>, Option<real>)

  /** A p-value below 0.05; a NaN p-value is never significant. */
  predicate Below05(p: Option<real>) { p.Some? && p.value < 0.05 }

  // ---------------------------------------------------------------------------------------------
  // Effect sizes

  datatype Effect = Negligible | Small | Medium | Large

  /** `_effect_size_label`: the band of |d| with bounds 0.2, 0.5 and 0.8. */
  function EffectLabel(d: real): (e: Effect)
    ensures e == Negligible <==> Abs(d) < 0.2
    ensures e == Small <==> 0.2 <= Abs(d) < 0.5
    ensures e == Medium <==> 0.5 <= Abs(d) < 0.8
    ensures e == Large <==> 0.8 <= Abs(d)
  {
    var a := Abs(d);
    if a < 0.2 then Negligible
    else if a < 0.5 then Small
    else if a < 0.8 then Medium
    else Large
  }

  function EffectRank(e: Effect): nat
  {
    match e
    case Negligible => 0
    case Small => 1
    case Medium => 2
    case Large => 3
  }

  /** A larger effect never gets a smaller label, and the sign of d does not matter. */
  lemma EffectLabelMonotone(d1: real, d2: real)
    requires Abs(d1) <= Abs(d2)
    ensures EffectRank(EffectLabel(d1)) <= EffectRank(EffectLabel(d2))
    ensures EffectLabel(-d1) == EffectLabel(d1)
  {
  }

  /** The pooled standard deviation of two samples of at least two values. */
  function PooledStd(a: seq<real>, b: seq<real>, disp: Dispersion): real
    requires |a| >= 2 && |b| >= 2
  {
    var na, nb := |a| as real, |b| as real;
    disp.sqrt(((na - 1.0) * disp.variance(a) + (nb - 1.0) * disp.variance(b)) / (na + nb - 2.0))
  }

  /** `_cohens_d`: the difference of the means over the pooled standard deviation, and 0 when a
   *  group has fewer than two values or the pooled deviation is 0. */
  function CohensD(a: seq<real>, b: seq<real>, disp: Dispersion): real
  {
    if |a| < 2 || |b| < 2 then 0.0
    else
      var s := PooledStd(a, b, disp);
      if s == 0.0 then 0.0 else (MeanOf(a) - MeanOf(b)) / s
  }

  /** Swapping the groups negates d. */
  lemma CohensDAntisymmetric(a: seq<real>, b: seq<real>, disp: Dispersion)
    ensures CohensD(b, a, disp) == -CohensD(a, b, disp)
  {
    if |a| >= 2 && |b| >= 2 {
      var na, nb := |a| as real, |b| as real;
      var va, vb := disp.variance(a), disp.variance(b);
      assert ((nb - 1.0) * vb + (na - 1.0) * va) / (nb + na - 2.0) == ((na - 1.0) * va + (nb - 1.0) * vb) / (na + nb - 2.0);
      assert PooledStd(b, a, disp) == PooledStd(a, b, disp);
      var s := PooledStd(a, b, disp);
      if s != 0.0 {
        assert (MeanOf(b) - MeanOf(a)) / s == -((MeanOf(a) - MeanOf(b)) / s);
      }
    }
  }

  /** The pooled deviation vanishes exactly when both samples are constant. */
  lemma PooledStdZero(a: seq<real>, b: seq<real>, disp: Dispersion)
    requires Lawful(disp) && |a| >= 2 && |b| >= 2
    ensures PooledStd(a, b, disp) >= 0.0
    ensures PooledStd(a, b, disp) == 0.0 <==> Constant(a) && Constant(b)
  {
    var na, nb := |a| as real, |b| as real;
    var va, vb := disp.variance(a), disp.variance(b);
    assert va >= 0.0 && vb >= 0.0;
    var num := (na - 1.0) * va + (nb - 1.0) * vb;
    var den := na + nb - 2.0;
    assert (na - 1.0) * va >= 0.0 && (nb - 1.0) * vb >= 0.0;
    assert num == 0.0 <==> va == 0.0 && vb == 0.0 by {
      if va > 0.0 { assert (na - 1.0) * va > 0.0; }
      if vb > 0.0 { assert (nb - 1.0) * vb > 0.0; }
    }
    assert den > 0.0;
    assert num / den >= 0.0;
    assert num / den == 0.0 <==> num == 0.0 by {
      if num > 0.0 { assert num / den > 0.0; }
    }
  }

  /** d is 0 exactly when a group is too small, both are constant, or the means are equal, and
   *  otherwise has the sign of the difference of the means. */
  lemma CohensDSign(a: seq<real>, b: seq<real>, disp: Dispersion)
    requires Lawful(disp)
    ensures |a| < 2 || |b| < 2 ==> CohensD(a, b, disp) == 0.0
    ensures |a| >= 2 && |b| >= 2 ==>
      (CohensD(a, b, disp) == 0.0 <==> (Constant(a) && Constant(b)) || MeanOf(a) == MeanOf(b))
    ensures |a| >= 2 && |b| >= 2 ==>
      (CohensD(a, b, disp) > 0.0 <==> !(Constant(a) && Constant(b)) && MeanOf(a) > MeanOf(b))
  {
    if |a| >= 2 && |b| >= 2 {
      PooledStdZero(a, b, disp);
      var s := PooledStd(a, b, disp);
      var diff := MeanOf(a) - MeanOf(b);
      if s > 0.0 {
        if diff > 0.0 { assert diff / s > 0.0; }
        else if diff < 0.0 { assert diff / s < 0.0; }
      }
    }
  }

  // ---------------------------------------------------------------------------------------------
  // The gender gap

  /** A gender cell, lower-cased, is one of `names` (`str.lower().isin(names)`); a cell that is
   *  not text is in no group. */
  predicate InGroup(c: Cell, names: seq<string>) { c.Str? && Text.Lower(c.s) in names }

  /** The present percentages of the rows whose gender is in `names`. */
  function GenderScores(rows: seq<Row>, genderCol: string, names: seq<string>): seq<real>
  {
    Pcts(GenderRows(rows, genderCol, names))
  }

  /** The rows whose gender is in `names`, in table order. */
  function GenderRows(rows: seq<Row>, genderCol: string, names: seq<string>): (r: seq<Row>)
    ensures forall i :: 0 <= i < |r| ==> r[i] in rows && InGroup(Get(r[i], genderCol), names)
  {
    if rows == [] then []
    else
      var last := rows[|rows| - 1];
      GenderRows(rows[..|rows| - 1], genderCol, names) + (if InGroup(Get(last, genderCol), names) then [last] else [])
  }

  /** No gender value is in both groups, so no score counts for both. */
  lemma GroupsDisjoint(c: Cell)
    ensures !(InGroup(c, MALE) && InGroup(c, FEMALE))
  {
  }

  datatype Direction = GirlsUnderperforming | BoysUnderperforming

  datatype GenderGap = GenderGap(
    title: string,
    subject: Option<string>,
    maleMean: real,
    femaleMean: real,
    gap: real,
    direction: Direction,
    tStatistic: Option<real>,
    pValue: Option<real>,
    effectSize: real,
    effectLabel: Effect,
    ciLower: real,
    ciUpper: real,
    maleCount: nat,
    femaleCount: nat,
    significant: bool)

  /** The standard error of the difference of the means. */
  function StdErr(male: seq<real>, female: seq<real>, disp: Dispersion): real
    requires |male| >= 2 && |female| >= 2
  {
    disp.sqrt(disp.variance(male) / |male| as real + disp.variance(female) / |female| as real)
  }

  /** The result of `_analyze_gender_gap` for two groups of at least two scores, with the subject
   *  key that the per-subject loop adds to it. */
  function GenderGapOf(male: seq<real>, female: seq<real>, title: string, subject: Option<string>, ttest: TTestFn, disp: Dispersion): GenderGap
    requires |male| >= 2 && |female| >= 2
  {
    var test := ttest(male, female);
    var d := CohensD(male, female, disp);
    var mm, fm := MeanOf(male), MeanOf(female);
    var se := StdErr(male, female, disp);
    GenderGap(title, subject, Safe(mm), Safe(fm), Safe(Abs(mm - fm)),
      if mm > fm then GirlsUnderperforming else BoysUnderperforming,
      SafeOpt(test.0), SafeOpt(test.1), Safe(d), EffectLabel(d),
      Safe((mm - fm) - 1.96 * se), Safe((mm - fm) + 1.96 * se),
      |male|, |female|, Below05(test.1) && Abs(d) > 0.2)
  }

  /** `_analyze_gender_gap` on a slice of the table: absent unless both groups have two scores. */
  function AnalyzeGender(rows: seq<Row>, genderCol: string, title: string, subject: Option<string>, ttest: TTestFn, disp: Dispersion): (r: Option<GenderGap>)
    ensures r.Some? <==> |GenderScores(rows, genderCol, MALE)| >= 2 && |GenderScores(rows, genderCol, FEMALE)| >= 2
  {
    var male := GenderScores(rows, genderCol, MALE);
    var female := GenderScores(rows, genderCol, FEMALE);
    if |male| < 2 || |female| < 2 then None else Some(GenderGapOf(male, female, title, subject, ttest, disp))
  }

  /** What a gender result promises: the counts reach two, the gap is non-negative, the interval
   *  is ordered, the direction names the group with the lower mean, and a significant result has
   *  a p-value and at least a small effect. */
  predicate GenderGapSound(g: GenderGap)
  {
    && g.maleCount >= 2 && g.femaleCount >= 2
    && g.gap >= 0.0
    && g.ciLower <= g.ciUpper
    && (g.direction == GirlsUnderperforming ==> g.maleMean >= g.femaleMean)
    && (g.direction == BoysUnderperforming ==> g.maleMean <= g.femaleMean)
    && (g.significant ==> g.pValue.Some? && g.effectLabel != Negligible)
  }

  lemma StdErrNonNegative(male: seq<real>, female: seq<real>, disp: Dispersion)
    requires Lawful(disp) && |male| >= 2 && |female| >= 2
    ensures StdErr(male, female, disp) >= 0.0
  {
    var vm, vf := disp.variance(male), disp.variance(female);
    assert vm / |male| as real >= 0.0 && vf / |female| as real >= 0.0;
  }

  /** A symmetric interval around `diff` stays ordered through the rounding. */
  lemma IntervalOrdered(diff: real, se: real)
    requires se >= 0.0
    ensures Safe(diff - 1.96 * se) <= Safe(diff + 1.96 * se)
  {
    SafeMonotone(diff - 1.96 * se, diff + 1.96 * se);
  }

  /** The soundness of a gender result. */
  lemma GenderGapOfSound(male: seq<real>, female: seq<real>, title: string, subject: Option<string>, ttest: TTestFn, disp: Dispersion)
    requires Lawful(disp) && |male| >= 2 && |female| >= 2
    ensures var g := GenderGapOf(male, female, title, subject, ttest, disp);
      GenderGapSound(g) && g.title == title && g.subject == subject
  {
    var mm, fm := MeanOf(male), MeanOf(female);
    SafeNonNegative(Abs(mm - fm));
    StdErrNonNegative(male, female, disp);
    IntervalOrdered(mm - fm, StdErr(male, female, disp));
    if mm > fm { SafeMonotone(fm, mm); } else { SafeMonotone(mm, fm); }
  }

  /** The counts, the direction, the significance and the label of a gender result, in terms of
   *  the two groups. */
  lemma GenderGapOfSpec(male: seq<real>, female: seq<real>, title: string, subject: Option<string>, ttest: TTestFn, disp: Dispersion)
    requires |male| >= 2 && |female| >= 2
    ensures var g := GenderGapOf(male, female, title, subject, ttest, disp);
      && g.maleCount == |male| && g.femaleCount == |female|
      && (g.direction == GirlsUnderperforming <==> MeanOf(male) > MeanOf(female))
      && (g.significant <==> Below05(ttest(male, female).1) && Abs(CohensD(male, female, disp)) > 0.2)
      && g.effectLabel == EffectLabel(CohensD(male, female, disp))
      && g.gap == Safe(Abs(MeanOf(male) - MeanOf(female)))
  {
  }

  /** A gender result of a slice of the table is sound and carries the given label and subject. */
  lemma AnalyzeGenderSound(rows: seq<Row>, genderCol: string, title: string, subject: Option<string>, ttest: TTestFn, disp: Dispersion)
    requires Lawful(disp)
    ensures var r := AnalyzeGender(rows, genderCol, title, subject, ttest, disp);
      r.Some? ==> GenderGapSound(r.value) && r.value.title == title && r.value.subject == subject
  {
    var male, female := GenderScores(rows, genderCol, MALE), GenderScores(rows, genderCol, FEMALE);
    if |male| >= 2 && |female| >= 2 {
      GenderGapOfSound(male, female, title, subject, ttest, disp);
    }
  }

  /** The gender result of one subject group, tagged with the subject. */
  function SubjectGenderGap(rows: seq<Row>, genderCol: string, subjectCol: string, key: Cell, ttest: TTestFn, disp: Dispersion): seq<GenderGap>
  {
    match AnalyzeGender(RowsWhere(rows, subjectCol, key), genderCol, CellString(key), Some(CellString(key)), ttest, disp)
    case None => []
    case Some(g) => [g]
  }

  /** The per-subject results over the subject groups `keys`, in group order. */
  function SubjectGenderGaps(rows: seq<Row>, genderCol: string, subjectCol: string, keys: seq<Cell>, ttest: TTestFn, disp: Dispersion): seq<GenderGap>
  {
    if keys == [] then []
    else
      SubjectGenderGaps(rows, genderCol, subjectCol, keys[..|keys| - 1], ttest, disp)
      + SubjectGenderGap(rows, genderCol, subjectCol, keys[|keys| - 1], ttest, disp)
  }

  function OverallGenderGap(rows: seq<Row>, genderCol: string, ttest: TTestFn, disp: Dispersion): seq<GenderGap>
  {
    match AnalyzeGender(rows, genderCol, "Overall", None, ttest, disp)
    case None => []
    case Some(g) => [g]
  }

  /** `_compute_gender_gaps`: nothing without a gender column; else the overall result, then one
   *  per subject group when there is a subject column. */
  function GenderGaps(f: Frame, ttest: TTestFn, disp: Dispersion): seq<GenderGap>
  {
    match FindCol(f.columns, GENDER_ALIASES)
    case None => []
    case Some(gc) =>
      OverallGenderGap(f.rows, gc, ttest, disp)
      + match FindCol(f.columns, Stats.SUBJECT_ALIASES)
        case None => []
        case Some(sc) => SubjectGenderGaps(f.rows, gc, sc, GroupKeys(f.rows, sc), ttest, disp)
  }

  /** `_compute_gender_gaps`: the overall result, then the per-subject loop. */
  method ComputeGenderGaps(f: Frame, ttest: TTestFn, disp: Dispersion) returns (gaps: seq<GenderGap>)
    ensures gaps == GenderGaps(f, ttest, disp)
  {
    var gc := FindCol(f.columns, GENDER_ALIASES);
    if gc.None? {
      return [];
    }
    gaps := OverallGenderGap(f.rows, gc.value, ttest, disp);
    var sc := FindCol(f.columns, Stats.SUBJECT_ALIASES);
    if sc.Some? {
      var perSubject := SubjectLoop(f.rows, gc.value, sc.value, GroupKeys(f.rows, sc.value), ttest, disp);
      gaps := gaps + perSubject;
    }
  }

  /** The loop over the subject groups, appending one result per qualifying group. */
  method SubjectLoop(rows: seq<Row>, genderCol: string, subjectCol: string, keys: seq<Cell>, ttest: TTestFn, disp: Dispersion)
    returns (gaps: seq<GenderGap>)
    ensures gaps == SubjectGenderGaps(rows, genderCol, subjectCol, keys, ttest, disp)
  {
    gaps := [];
    var k := 0;
    while k < |keys|
      invariant 0 <= k <= |keys|
      invariant gaps == SubjectGenderGaps(rows, genderCol, subjectCol, keys[..k], ttest, disp)
    {
      assert keys[..k + 1][..k] == keys[..k];
      var result := AnalyzeGender(RowsWhere(rows, subjectCol, keys[k]), genderCol, CellString(keys[k]), Some(CellString(keys[k])), ttest, disp);
      ghost var cell := SubjectGenderGap(rows, genderCol, subjectCol, keys[k], ttest, disp);
      assert SubjectGenderGaps(rows, genderCol, subjectCol, keys[..k + 1], ttest, disp)
        == SubjectGenderGaps(rows, genderCol, subjectCol, keys[..k], ttest, disp) + cell;
      if result.Some? {
        assert cell == [result.value];
        gaps := gaps + [result.value];
      } else {
        assert cell == [];
      }
      k := k + 1;
    }
    assert keys[..k] == keys;
  }

  /** Every per-subject result is sound and carries its subject as its label. */
  lemma {:induction false} SubjectGenderGapsSpec(rows: seq<Row>, genderCol: string, subjectCol: string, keys: seq<Cell>, ttest: TTestFn, disp: Dispersion)
    requires Lawful(disp)
    ensures forall g :: g in SubjectGenderGaps(rows, genderCol, subjectCol, keys, ttest, disp) ==>
      GenderGapSound(g) && g.subject == Some(g.title)
    ensures |SubjectGenderGaps(rows, genderCol, subjectCol, keys, ttest, disp)| <= |keys|
  {
    if keys != [] {
      var key := keys[|keys| - 1];
      SubjectGenderGapsSpec(rows, genderCol, subjectCol, keys[..|keys| - 1], ttest, disp);
      var prev := SubjectGenderGaps(rows, genderCol, subjectCol, keys[..|keys| - 1], ttest, disp);
      var cell := SubjectGenderGap(rows, genderCol, subjectCol, key, ttest, disp);
      assert SubjectGenderGaps(rows, genderCol, subjectCol, keys, ttest, disp) == prev + cell;
      SubjectGenderGapSpec(rows, genderCol, subjectCol, key, ttest, disp);
    }
  }

  lemma SubjectGenderGapSpec(rows: seq<Row>, genderCol: string, subjectCol: string, key: Cell, ttest: TTestFn, disp: Dispersion)
    requires Lawful(disp)
    ensures forall g :: g in SubjectGenderGap(rows, genderCol, subjectCol, key, ttest, disp) ==>
      GenderGapSound(g) && g.subject == Some(g.title)
    ensures |SubjectGenderGap(rows, genderCol, subjectCol, key, ttest, disp)| <= 1
  {
    AnalyzeGenderSound(RowsWhere(rows, subjectCol, key), genderCol, CellString(key), Some(CellString(key)), ttest, disp);
  }

  /** The overall result: absent unless both groups of the whole table have two scores, and
   *  then labelled "Overall" with no subject. */
  lemma OverallGenderGapSpec(rows: seq<Row>, genderCol: string, ttest: TTestFn, disp: Dispersion)
    requires Lawful(disp)
    ensures var o := OverallGenderGap(rows, genderCol, ttest, disp);
      && (|o| == 1 <==> |GenderScores(rows, genderCol, MALE)| >= 2 && |GenderScores(rows, genderCol, FEMALE)| >= 2)
      && |o| <= 1
      && forall g :: g in o ==> GenderGapSound(g) && g.title == "Overall" && g.subject.None?
  {
    AnalyzeGenderSound(rows, genderCol, "Overall", None, ttest, disp);
  }

  /** The gender results: none without a gender column; otherwise every result is sound, the
   *  overall one (labelled "Overall", with no subject) comes first when both groups of the
   *  whole table have two scores, and the others carry their subject as their label. */
  lemma GenderGapsSpec(f: Frame, ttest: TTestFn, disp: Dispersion)
    requires Lawful(disp)
    ensures FindCol(f.columns, GENDER_ALIASES).None? ==> GenderGaps(f, ttest, disp) == []
    ensures forall g :: g in GenderGaps(f, ttest, disp) ==> GenderGapSound(g)
    ensures forall g :: g in GenderGaps(f, ttest, disp) ==>
      (g.title == "Overall" && g.subject.None?) || g.subject == Some(g.title)
    ensures FindCol(f.columns, GENDER_ALIASES).Some? ==>
      GenderGaps(f, ttest, disp)[..|OverallGenderGap(f.rows, FindCol(f.columns, GENDER_ALIASES).value, ttest, disp)|]
        == OverallGenderGap(f.rows, FindCol(f.columns, GENDER_ALIASES).value, ttest, disp)
  {
    match FindCol(f.columns, GENDER_ALIASES)
    case None =>
    case Some(gc) =>
      var o := OverallGenderGap(f.rows, gc, ttest, disp);
      OverallGenderGapSpec(f.rows, gc, ttest, disp);
      var rest := match FindCol(f.columns, Stats.SUBJECT_ALIASES)
        case None => []
        case Some(sc) => SubjectGenderGaps(f.rows, gc, sc, GroupKeys(f.rows, sc), ttest, disp);
      assert GenderGaps(f, ttest, disp) == o + rest;
      match FindCol(f.columns, Stats.SUBJECT_ALIASES)
      case None =>
      case Some(sc) =>
        SubjectGenderGapsSpec(f.rows, gc, sc, GroupKeys(f.rows, sc), ttest, disp);
      assert (o + rest)[..|o|] == o;
  }

  // ---------------------------------------------------------------------------------------------
  // Groups of scores keyed by text

  /** A dict from `str(value)` to the scores of that value, in insertion order. */
  type Groups = seq<(string, seq<real>)>

  function Names(d: Groups): (r: seq<string>)
    ensures |r| == |d| && forall i :: 0 <= i < |d| ==> r[i] == d[i].0
  {
    seq(|d|, i requires 0 <= i < |d| => d[i].0)
  }

  /** `d[k] = v`: an existing key keeps its place and takes the new value; a new key is appended. */
  function Put(d: Groups, k: string, v: seq<real>): (r: Groups)
    ensures k in Names(d) ==> |r| == |d| && Names(r) == Names(d)
    ensures k !in Names(d) ==> r == d + [(k, v)]
    ensures NoDups(Names(d)) ==> NoDups(Names(r))
    ensures NoDups(Names(d)) ==> forall i :: 0 <= i < |r| ==> r[i] == (if r[i].0 == k then (k, v) else d[i])
  {
    var i := IndexOf(Names(d), k);
    if i < |d| then d[i := (k, v)] else d + [(k, v)]
  }

  /** The loop that fills `class_groups` (and `region_groups`, `term_means`): for each value in
   *  turn, its present percentages are stored under `str(value)` when there are at least `min`. */
  function GroupsFrom(rows: seq<Row>, col: string, values: seq<Cell>, min: nat): (r: Groups)
    ensures NoDups(Names(r))
    ensures forall i :: 0 <= i < |r| ==> |r[i].1| >= min
    ensures |r| <= |values|
  {
    if values == [] then []
    else
      var d := GroupsFrom(rows, col, values[..|values| - 1], min);
      var v := values[|values| - 1];
      var s := Stats.GroupPcts(rows, col, v);
      if |s| >= min then Put(d, CellString(v), s) else d
  }

  /** After `d[k] = v`, the keys are the old ones and `k`. */
  lemma PutNames(d: Groups, k: string, v: seq<real>)
    ensures k in Names(Put(d, k, v))
    ensures forall n :: n in Names(d) ==> n in Names(Put(d, k, v))
  {
    var r := Put(d, k, v);
    if k !in Names(d) {
      assert r[|d|] == (k, v);
      forall n | n in Names(d) ensures n in Names(r) {
        var i := IndexOf(Names(d), n);
        assert r[i] == d[i];
      }
    }
  }

  /** After `d[k] = v`, every entry is `(k, v)` or an old entry. */
  lemma PutEntries(d: Groups, k: string, v: seq<real>)
    requires NoDups(Names(d))
    ensures forall e :: e in Put(d, k, v) ==> e == (k, v) || e in d
  {
    var r := Put(d, k, v);
    forall e | e in r ensures e == (k, v) || e in d {
      var i := IndexOf(r, e);
      if r[i].0 != k {
        assert r[i] == d[i];
      }
    }
  }

  /** Every value with at least `min` scores has its text among the keys. */
  lemma {:induction false} GroupsFromKeys(rows: seq<Row>, col: string, values: seq<Cell>, min: nat)
    ensures forall v :: v in values && |Stats.GroupPcts(rows, col, v)| >= min ==>
      CellString(v) in Names(GroupsFrom(rows, col, values, min))
  {
    if values != [] {
      var init := values[..|values| - 1];
      var prev := GroupsFrom(rows, col, init, min);
      GroupsFromKeys(rows, col, init, min);
      var v := values[|values| - 1];
      var s := Stats.GroupPcts(rows, col, v);
      var d := GroupsFrom(rows, col, values, min);
      assert forall w :: w in values ==> w in init || w == v;
      if |s| >= min {
        assert d == Put(prev, CellString(v), s);
        PutNames(prev, CellString(v), s);
      } else {
        assert d == prev;
      }
    }
  }

  /** Every stored group holds the scores of a value with that text. */
  lemma {:induction false} GroupsFromOrigin(rows: seq<Row>, col: string, values: seq<Cell>, min: nat)
    ensures forall e :: e in GroupsFrom(rows, col, values, min) ==>
      exists v :: v in values && CellString(v) == e.0 && Stats.GroupPcts(rows, col, v) == e.1
  {
    if values != [] {
      var init := values[..|values| - 1];
      var prev := GroupsFrom(rows, col, init, min);
      GroupsFromOrigin(rows, col, init, min);
      var v := values[|values| - 1];
      var s := Stats.GroupPcts(rows, col, v);
      var d := GroupsFrom(rows, col, values, min);
      assert forall w :: w in init ==> w in values;
      if |s| >= min {
        assert d == Put(prev, CellString(v), s);
        PutEntries(prev, CellString(v), s);
        forall e | e in d
          ensures exists w :: w in values && CellString(w) == e.0 && Stats.GroupPcts(rows, col, w) == e.1
        {
          if e == (CellString(v), s) {
            assert v in values;
          }
        }
      } else {
        assert d == prev;
      }
    }
  }

  /** The loop over the values, filling the dict in place. */
  method CollectGroups(rows: seq<Row>, col: string, values: seq<Cell>, min: nat) returns (d: Groups)
    ensures d == GroupsFrom(rows, col, values, min)
  {
    d := [];
    var k := 0;
    while k < |values|
      invariant 0 <= k <= |values|
      invariant d == GroupsFrom(rows, col, values[..k], min)
    {
      assert values[..k + 1][..k] == values[..k];
      var scores := Stats.GroupPcts(rows, col, values[k]);
      if |scores| >= min {
        d := Put(d, CellString(values[k]), scores);
      }
      k := k + 1;
    }
    assert values[..k] == values;
  }

  // ---------------------------------------------------------------------------------------------
  // Best, worst and the ordered means

  type Means = seq<(string, real)>

  /** The mean of each group. */
  function MeansOf(d: Groups): (m: Means)
    requires forall i :: 0 <= i < |d| ==> |d[i].1| > 0
    ensures |m| == |d|
    ensures forall i :: 0 <= i < |d| ==> m[i] == (d[i].0, MeanOf(d[i].1))
  {
    seq(|d|, i requires 0 <= i < |d| => (d[i].0, MeanOf(d[i].1)))
  }

  /** The key of `sorted(..., key=lambda x: x[1], reverse=True)`: larger means first. */
  predicate MeanGe(a: (string, real), b: (string, real)) { a.1 >= b.1 }

  lemma MeanGeTotalPreorder()
    ensures TotalPreorder(MeanGe)
  {
  }

  function RoundedMeans(s: Means): (r: Means)
    ensures |r| == |s|
    ensures forall i :: 0 <= i < |s| ==> r[i] == (s[i].0, Safe(s[i].1))
  {
    seq(|s|, i requires 0 <= i < |s| => (s[i].0, Safe(s[i].1)))
  }

  /** The best and the worst group, their gap and every mean, from the descending order. */
  datatype Spread = Spread(best: string, bestMean: real, worst: string, worstMean: real, gap: real, means: Means)

  function SpreadOf(m: Means): Spread
    requires |m| > 0
  {
    var s := SortBy(m, MeanGe);
    Spread(s[0].0, Safe(s[0].1), s[|s| - 1].0, Safe(s[|s| - 1].1), Safe(s[0].1 - s[|s| - 1].1), RoundedMeans(s))
  }

  /** The best group has the largest mean and the worst the smallest, the gap is not negative and
   *  every group is listed, in descending order of mean. */
  predicate SpreadSound(sp: Spread, m: Means)
  {
    && sp.gap >= 0.0
    && sp.bestMean >= sp.worstMean
    && |sp.means| == |m|
    && SortedBy(sp.means, MeanGe)
    && (exists i :: 0 <= i < |m| && m[i].0 == sp.best && sp.bestMean == Safe(m[i].1) &&
          forall j :: 0 <= j < |m| ==> m[j].1 <= m[i].1)
    && (exists i :: 0 <= i < |m| && m[i].0 == sp.worst && sp.worstMean == Safe(m[i].1) &&
          forall j :: 0 <= j < |m| ==> m[j].1 >= m[i].1)
  }

  lemma SpreadSpec(m: Means)
    requires |m| > 0
    ensures SpreadSound(SpreadOf(m), m)
  {
    var s := SortBy(m, MeanGe);
    MeanGeTotalPreorder();
    SortBySorted(m, MeanGe);
    SortByPerm(m, MeanGe);
    ExtremeWitnesses(m, s);
    RoundedSorted(s);
  }

  /** The first and last entries of a descending permutation are groups of `m` with the largest
   *  and the smallest mean. */
  lemma ExtremeWitnesses(m: Means, s: Means)
    requires |s| > 0 && multiset(s) == multiset(m) && SortedBy(s, MeanGe)
    ensures Safe(s[0].1 - s[|s| - 1].1) >= 0.0 && Safe(s[0].1) >= Safe(s[|s| - 1].1)
    ensures exists i :: (0 <= i < |m| && m[i].0 == s[0].0 && Safe(s[0].1) == Safe(m[i].1)
                         && forall j :: 0 <= j < |m| ==> m[j].1 <= m[i].1)
    ensures exists i :: (0 <= i < |m| && m[i].0 == s[|s| - 1].0 && Safe(s[|s| - 1].1) == Safe(m[i].1)
                         && forall j :: 0 <= j < |m| ==> m[j].1 >= m[i].1)
  {
    var n := |s|;
    Extremes(m, s);
    var b := IndexOf(m, s[0]);
    var w := IndexOf(m, s[n - 1]);
    assert m[b] == s[0] && m[w] == s[n - 1];
    SafeNonNegative(s[0].1 - s[n - 1].1);
    SafeMonotone(s[n - 1].1, s[0].1);
  }

  /** In a descending permutation of `m`, the first entry has the largest mean and the last the
   *  smallest. */
  lemma Extremes(m: Means, s: Means)
    requires |s| > 0 && multiset(s) == multiset(m) && SortedBy(s, MeanGe)
    ensures s[0] in m && s[|s| - 1] in m
    ensures forall j :: 0 <= j < |m| ==> s[|s| - 1].1 <= m[j].1 <= s[0].1
  {
    var n := |s|;
    assert s[0] in multiset(s) && s[n - 1] in multiset(s);
    forall j | 0 <= j < |m| ensures s[n - 1].1 <= m[j].1 <= s[0].1 {
      assert m[j] in multiset(m);
      assert m[j] in s;
      var k := IndexOf(s, m[j]);
      assert k == 0 || MeanGe(s[0], s[k]);
      assert k == n - 1 || MeanGe(s[k], s[n - 1]);
    }
  }

  /** Rounding keeps a descending order. */
  lemma RoundedSorted(s: Means)
    requires SortedBy(s, MeanGe)
    ensures SortedBy(RoundedMeans(s), MeanGe)
  {
    var r := RoundedMeans(s);
    forall i, j | 0 <= i < j < |r| ensures MeanGe(r[i], r[j]) {
      SafeMonotone(s[j].1, s[i].1);
    }
  }

  // ---------------------------------------------------------------------------------------------
  // Eta-squared

  /** All the scores of the groups, concatenated. */
  function Concat(g: seq<seq<real>>): (r: seq<real>)
    ensures forall i :: 0 <= i < |g| ==> |g[i]| <= |r|
  {
    if g == [] then [] else Concat(g[..|g| - 1]) + g[|g| - 1]
  }

  /** The sum of squared deviations of `xs` from `c`. */
  function SqDev(xs: seq<real>, c: real): real
  {
    if xs == [] then 0.0 else SqDev(xs[..|xs| - 1], c) + (xs[|xs| - 1] - c) * (xs[|xs| - 1] - c)
  }

  predicate NonEmptyGroups(g: seq<seq<real>>) { forall i :: 0 <= i < |g| ==> |g[i]| > 0 }

  /** `sum(len(g) * (mean(g) - c)**2 for g in groups)`. */
  function Between(g: seq<seq<real>>, c: real): real
    requires NonEmptyGroups(g)
  {
    if g == [] then 0.0
    else
      Between(g[..|g| - 1], c) + Share(g[|g| - 1], c)
  }

  /** One group's term of `Between`. */
  function Share(xs: seq<real>, c: real): real
    requires |xs| > 0
  {
    Weighted(|xs| as real, MeanOf(xs) - c)
  }

  /** `n * t**2`. */
  function Weighted(n: real, t: real): real { n * (t * t) }

  /** `sum(np.sum((g - c)**2) for g in groups)`. */
  function Total(g: seq<seq<real>>, c: real): real
  {
    if g == [] then 0.0 else Total(g[..|g| - 1], c) + SqDev(g[|g| - 1], c)
  }

  /** The ANOVA effect size: the share of the squared deviation from the grand mean that lies
   *  between the group means, and 0 when there is no deviation at all. */
  function EtaSquared(g: seq<seq<real>>): real
    requires |g| > 0 && NonEmptyGroups(g)
  {
    var all := Concat(g);
    assert |g[0]| <= |all|;
    var grand := MeanOf(all);
    var between := Between(g, grand);
    var total := Total(g, grand);
    if total > 0.0 then between / total else 0.0
  }

  /** The sum of the deviations of `xs` from `d`. */
  function Dev(xs: seq<real>, d: real): real
  {
    if xs == [] then 0.0 else Dev(xs[..|xs| - 1], d) + (xs[|xs| - 1] - d)
  }

  lemma {:induction false} DevSum(xs: seq<real>, d: real)
    ensures Dev(xs, d) == Sum(xs) - |xs| as real * d
  {
    if xs != [] {
      DevSum(xs[..|xs| - 1], d);
      assert |xs| as real * d == (|xs| - 1) as real * d + d;
    }
  }

  /** The sum of the squares of `xs`. */
  function SumSq(xs: seq<real>): real
  {
    if xs == [] then 0.0 else SumSq(xs[..|xs| - 1]) + xs[|xs| - 1] * xs[|xs| - 1]
  }

  /** `a` is the squared deviation from `c` of values with sum of squares `q`, sum `s` and size `n`. */
  predicate Expanded(a: real, q: real, s: real, n: real, c: real)
  {
    a == q - 2.0 * c * s + n * (c * c)
  }

  /** The squared deviation from `c`, expanded into the sums of the values and of their squares. */
  lemma {:induction false} SqDevExpand(xs: seq<real>, c: real)
    ensures Expanded(SqDev(xs, c), SumSq(xs), Sum(xs), |xs| as real, c)
  {
    if xs != [] {
      var init := xs[..|xs| - 1];
      SqDevExpand(init, c);
      ExpandStep(SqDev(init, c), Sum(init), SumSq(init), |init| as real, xs[|xs| - 1], c,
                 SqDev(xs, c), Sum(xs), SumSq(xs), |xs| as real);
    }
  }

  /** The algebra of one step of `SqDevExpand`: `a`, `s`, `q` and `n` are the squared deviation,
   *  the sum, the sum of squares and the size before `x` is added, the primed ones after. */
  lemma ExpandStep(a: real, s: real, q: real, n: real, x: real, c: real, a': real, s': real, q': real, n': real)
    requires Expanded(a, q, s, n, c)
    requires a' == a + (x - c) * (x - c) && s' == s + x && q' == q + x * x && n' == n + 1.0
    ensures Expanded(a', q', s', n', c)
  {
  }

  /** `a`, the squared deviation from `c`, is `b`, the one from `d`, plus a cross term in the
   *  deviation `dev` from `d` and a square term for the `n` values. */
  predicate Shifted(a: real, b: real, dev: real, n: real, c: real, d: real)
  {
    a == b + 2.0 * (d - c) * dev + n * ((d - c) * (d - c))
  }

  /** Moving the centre from `d` to `c` changes the squared deviation by a cross term and a
   *  square. */
  lemma SqDevShift(xs: seq<real>, c: real, d: real)
    ensures Shifted(SqDev(xs, c), SqDev(xs, d), Dev(xs, d), |xs| as real, c, d)
  {
    SqDevExpand(xs, c);
    SqDevExpand(xs, d);
    DevSum(xs, d);
    ShiftAlgebra(SqDev(xs, c), SqDev(xs, d), Dev(xs, d), SumSq(xs), Sum(xs), |xs| as real, c, d);
  }

  /** The algebra of `SqDevShift`, with the sums over the values as parameters. */
  lemma ShiftAlgebra(a: real, b: real, dev: real, q: real, s: real, n: real, c: real, d: real)
    requires Expanded(a, q, s, n, c) && Expanded(b, q, s, n, d)
    requires dev == s - n * d
    ensures Shifted(a, b, dev, n, c, d)
  {
  }

  lemma Square(t: real)
    ensures t * t >= 0.0
  {
    if t < 0.0 {
      assert t * t == (-t) * (-t);
    }
  }

  lemma {:induction false} SqDevNonNegative(xs: seq<real>, c: real)
    ensures SqDev(xs, c) >= 0.0
  {
    if xs != [] {
      SqDevNonNegative(xs[..|xs| - 1], c);
      Square(xs[|xs| - 1] - c);
    }
  }

  /** A group's squared deviation from any centre is at least its size times the squared distance
   *  of its mean from that centre. */
  lemma GroupSplit(xs: seq<real>, c: real)
    requires |xs| > 0
    ensures 0.0 <= Share(xs, c) <= SqDev(xs, c)
  {
    DevAtMean(xs);
    SplitAt(xs, c, MeanOf(xs));
  }

  /** `GroupSplit` for any centre `m` from which the deviations of `xs` sum to zero. */
  lemma SplitAt(xs: seq<real>, c: real, m: real)
    requires Dev(xs, m) == 0.0
    ensures 0.0 <= Weighted(|xs| as real, m - c) <= SqDev(xs, c)
  {
    ShiftFromBalanced(xs, c, m);
    SqDevNonNegative(xs, m);
    Square(m - c);
    MulMonotone(0.0, |xs| as real, (m - c) * (m - c));
  }

  /** With no cross term, moving the centre from `m` to `c` adds the square term alone. */
  lemma ShiftFromBalanced(xs: seq<real>, c: real, m: real)
    requires Dev(xs, m) == 0.0
    ensures SqDev(xs, c) == SqDev(xs, m) + |xs| as real * ((m - c) * (m - c))
  {
    SqDevShift(xs, c, m);
  }

  /** The deviations from the mean sum to zero. */
  lemma DevAtMean(xs: seq<real>)
    requires |xs| > 0
    ensures Dev(xs, MeanOf(xs)) == 0.0
  {
    DevSum(xs, MeanOf(xs));
    MeanTimesCount(Sum(xs), |xs| as real);
  }

  lemma MeanTimesCount(s: real, n: real)
    requires n > 0.0
    ensures s - n * (s / n) == 0.0
  {
  }

  lemma {:induction false} BetweenWithinTotal(g: seq<seq<real>>, c: real)
    requires NonEmptyGroups(g)
    ensures 0.0 <= Between(g, c) <= Total(g, c)
  {
    if g != [] {
      var init, last := g[..|g| - 1], g[|g| - 1];
      assert NonEmptyGroups(init);
      BetweenWithinTotal(init, c);
      GroupSplit(last, c);
      assert Between(g, c) == Between(init, c) + Share(last, c);
      assert Total(g, c) == Total(init, c) + SqDev(last, c);
    }
  }

  /** Eta-squared lies in [0, 1]. */
  lemma EtaSquaredWithin(g: seq<seq<real>>)
    requires |g| > 0 && NonEmptyGroups(g)
    ensures 0.0 <= EtaSquared(g) <= 1.0
  {
    var all := Concat(g);
    assert |g[0]| <= |all|;
    var grand := MeanOf(all);
    BetweenWithinTotal(g, grand);
    var between := Between(g, grand);
    var total := Total(g, grand);
    if total > 0.0 {
      DivWithin(between, 0.0, 1.0, total);
    }
  }

  // ---------------------------------------------------------------------------------------------
  // The class gap and the regional gap

  /** The scores of each group, in insertion order (`list(groups.values())`). */
  function Arrays(d: Groups): (g: seq<seq<real>>)
    ensures |g| == |d| && forall i :: 0 <= i < |d| ==> g[i] == d[i].1
  {
    seq(|d|, i requires 0 <= i < |d| => d[i].1)
  }

  datatype TestType = TTest | Anova

  /** The test of two groups is Welch's t-test, of more a one-way ANOVA. */
  function GroupTest(d: Groups, ttest: TTestFn, ftest: FTestFn): (r: (TestType, (Option<real>, Option<real>)))
    requires |d| >= 2
    ensures r.0 == TTest <==> |d| == 2
  {
    if |d| == 2 then (TTest, ttest(d[0].1, d[1].1)) else (Anova, ftest(Arrays(d)))
  }

  /** Every group holds at least two scores. */
  predicate AllPairs(d: Groups) { forall i :: 0 <= i < |d| ==> |d[i].1| >= 2 }

  datatype ClassGap = ClassGap(testType: TestType, spread: Spread, statistic: Option<real>, pValue: Option<real>,
                               effectSize: real, significant: bool)

  /** The class result for at least two groups of at least two scores: Cohen's d of the first
   *  group against the second under the t-test, eta-squared under the ANOVA. */
  function ClassGapOf(d: Groups, ttest: TTestFn, ftest: FTestFn, disp: Dispersion): ClassGap
    requires |d| >= 2 && AllPairs(d)
  {
    var test := GroupTest(d, ttest, ftest);
    var effect := if |d| == 2 then CohensD(d[0].1, d[1].1, disp) else EtaSquared(Arrays(d));
    ClassGap(test.0, SpreadOf(MeansOf(d)), SafeOpt(test.1.0), SafeOpt(test.1.1), Safe(effect), Below05(test.1.1))
  }

  /** What a class result promises: the test matches the number of groups, the eta-squared of an
   *  ANOVA lies in [0, 1], Cohen's d of two groups is not negative when the first has the larger
   *  mean, a significant result has a p-value, and the spread is that of the group means. */
  lemma ClassGapOfSpec(d: Groups, ttest: TTestFn, ftest: FTestFn, disp: Dispersion)
    requires |d| >= 2 && AllPairs(d) && Lawful(disp)
    ensures var g := ClassGapOf(d, ttest, ftest, disp);
      && (g.testType == TTest <==> |d| == 2)
      && (g.testType == Anova ==> 0.0 <= g.effectSize <= 1.0)
      && (g.testType == TTest && MeanOf(d[0].1) >= MeanOf(d[1].1) ==> g.effectSize >= 0.0)
      && (g.significant ==> g.pValue.Some?)
      && SpreadSound(g.spread, MeansOf(d))
  {
    SpreadSpec(MeansOf(d));
    if |d| == 2 {
      TwoGroupEffect(d[0].1, d[1].1, disp);
    } else {
      AnovaEffectOf(d, ttest, ftest, disp);
    }
  }

  /** The effect size of a class result from an ANOVA lies in [0, 1]. */
  lemma AnovaEffectOf(d: Groups, ttest: TTestFn, ftest: FTestFn, disp: Dispersion)
    requires |d| >= 2 && AllPairs(d)
    ensures ClassGapOf(d, ttest, ftest, disp).testType == Anova ==> 0.0 <= ClassGapOf(d, ttest, ftest, disp).effectSize <= 1.0
  {
    if |d| != 2 {
      AnovaEffect(Arrays(d));
    }
  }

  /** Cohen's d, rounded, is not negative when the first mean is the larger. */
  lemma TwoGroupEffect(a: seq<real>, b: seq<real>, disp: Dispersion)
    requires |a| >= 2 && |b| >= 2 && Lawful(disp)
    ensures MeanOf(a) >= MeanOf(b) ==> Safe(CohensD(a, b, disp)) >= 0.0
  {
    CohensDSign(a, b, disp);
    if MeanOf(a) >= MeanOf(b) {
      SafeNonNegative(CohensD(a, b, disp));
    }
  }

  /** Eta-squared, rounded, lies in [0, 1]. */
  lemma AnovaEffect(g: seq<seq<real>>)
    requires |g| > 0 && NonEmptyGroups(g)
    ensures 0.0 <= Safe(EtaSquared(g)) <= 1.0
  {
    EtaSquaredWithin(g);
    RoundWithin(EtaSquared(g), 4, 0, 1);
  }

  /** The groups of `_compute_class_gaps` and `_compute_regional_gaps`: the present values of the
   *  column, and their texts with at least two scores. */
  function PairGroups(rows: seq<Row>, col: string): Groups
  {
    GroupsFrom(rows, col, PresentUnique(rows, col), 2)
  }

  /** `_compute_class_gaps`: nothing without a class column, with fewer than two present classes
   *  or with fewer than two classes of two scores; otherwise one result. */
  function ClassGaps(f: Frame, ttest: TTestFn, ftest: FTestFn, disp: Dispersion): seq<ClassGap>
  {
    match FindCol(f.columns, Stats.CLASS_ALIASES)
    case None => []
    case Some(col) =>
      if |PresentUnique(f.rows, col)| < 2 then []
      else
        var d := PairGroups(f.rows, col);
        if |d| < 2 then [] else [ClassGapOf(d, ttest, ftest, disp)]
  }

  /** `_compute_class_gaps`, filling the groups with the loop of `CollectGroups`. */
  method ComputeClassGaps(f: Frame, ttest: TTestFn, ftest: FTestFn, disp: Dispersion) returns (gaps: seq<ClassGap>)
    ensures gaps == ClassGaps(f, ttest, ftest, disp)
  {
    var col := FindCol(f.columns, Stats.CLASS_ALIASES);
    if col.None? {
      return [];
    }
    var classes := PresentUnique(f.rows, col.value);
    if |classes| < 2 {
      return [];
    }
    gaps := [];
    var d := CollectGroups(f.rows, col.value, classes, 2);
    if |d| < 2 {
      return [];
    }
    gaps := gaps + [ClassGapOf(d, ttest, ftest, disp)];
  }

  /** There is a result exactly when a class column exists and two class texts have two scores
   *  each; it is then alone and sound. */
  lemma ClassGapsSpec(f: Frame, ttest: TTestFn, ftest: FTestFn, disp: Dispersion)
    requires Lawful(disp)
    ensures var r := ClassGaps(f, ttest, ftest, disp);
      var col := FindCol(f.columns, Stats.CLASS_ALIASES);
      && |r| <= 1
      && (|r| == 1 <==> col.Some? && |PairGroups(f.rows, col.value)| >= 2)
      && (|r| == 1 ==> r[0] == ClassGapOf(PairGroups(f.rows, col.value), ttest, ftest, disp))
  {
    match FindCol(f.columns, Stats.CLASS_ALIASES)
    case None =>
    case Some(col) =>
      var d := PairGroups(f.rows, col);
      assert |d| <= |PresentUnique(f.rows, col)|;
  }

  /** The effect size of a class result from an ANOVA lies in [0, 1]. */
  lemma ClassGapsEffect(f: Frame, ttest: TTestFn, ftest: FTestFn, disp: Dispersion)
    requires Lawful(disp)
    ensures forall g :: g in ClassGaps(f, ttest, ftest, disp) && g.testType == Anova ==> 0.0 <= g.effectSize <= 1.0
  {
    ClassGapsSpec(f, ttest, ftest, disp);
    var r := ClassGaps(f, ttest, ftest, disp);
    if |r| == 1 {
      var d := PairGroups(f.rows, FindCol(f.columns, Stats.CLASS_ALIASES).value);
      AnovaEffectOf(d, ttest, ftest, disp);
      assert forall g :: g in r ==> g == r[0];
    }
  }

  datatype RegionalGap = RegionalGap(testType: TestType, spread: Spread, statistic: Option<real>, pValue: Option<real>,
                                     significant: bool)

  function RegionalGapOf(d: Groups, ttest: TTestFn, ftest: FTestFn): RegionalGap
    requires |d| >= 2 && AllPairs(d)
  {
    var test := GroupTest(d, ttest, ftest);
    RegionalGap(test.0, SpreadOf(MeansOf(d)), SafeOpt(test.1.0), SafeOpt(test.1.1), Below05(test.1.1))
  }

  /** What a regional result promises: the test matches the number of groups, a significant
   *  result has a p-value, and the spread is that of the group means. */
  lemma RegionalGapOfSpec(d: Groups, ttest: TTestFn, ftest: FTestFn)
    requires |d| >= 2 && AllPairs(d)
    ensures var g := RegionalGapOf(d, ttest, ftest);
      && (g.testType == TTest <==> |d| == 2)
      && (g.significant ==> g.pValue.Some?)
      && SpreadSound(g.spread, MeansOf(d))
  {
    SpreadSpec(MeansOf(d));
  }

  /** `_compute_regional_gaps`: the class rule on the region column. */
  function RegionalGaps(f: Frame, ttest: TTestFn, ftest: FTestFn): seq<RegionalGap>
  {
    match FindCol(f.columns, REGION_ALIASES)
    case None => []
    case Some(col) =>
      if |PresentUnique(f.rows, col)| < 2 then []
      else
        var d := PairGroups(f.rows, col);
        if |d| < 2 then [] else [RegionalGapOf(d, ttest, ftest)]
  }

  method ComputeRegionalGaps(f: Frame, ttest: TTestFn, ftest: FTestFn) returns (gaps: seq<RegionalGap>)
    ensures gaps == RegionalGaps(f, ttest, ftest)
  {
    var col := FindCol(f.columns, REGION_ALIASES);
    if col.None? {
      return [];
    }
    var regions := PresentUnique(f.rows, col.value);
    if |regions| < 2 {
      return [];
    }
    var d := CollectGroups(f.rows, col.value, regions, 2);
    if |d| < 2 {
      return [];
    }
    gaps := [RegionalGapOf(d, ttest, ftest)];
  }

  lemma RegionalGapsSpec(f: Frame, ttest: TTestFn, ftest: FTestFn)
    ensures var r := RegionalGaps(f, ttest, ftest);
      var col := FindCol(f.columns, REGION_ALIASES);
      && |r| <= 1
      && (|r| == 1 <==> col.Some? && |PairGroups(f.rows, col.value)| >= 2)
      && (|r| == 1 ==> r[0] == RegionalGapOf(PairGroups(f.rows, col.value), ttest, ftest))
  {
    match FindCol(f.columns, REGION_ALIASES)
    case None =>
    case Some(col) =>
      var d := PairGroups(f.rows, col);
      assert |d| <= |PresentUnique(f.rows, col)|;
  }

  // ---------------------------------------------------------------------------------------------
  // The term gap

  /** The groups of `_compute_term_gaps`: the sorted present terms, and their texts with at least
   *  one score. */
  function TermGroups(rows: seq<Row>, col: string): Groups
  {
    GroupsFrom(rows, col, GroupKeys(rows, col), 1)
  }

  /** `_compute_term_gaps` as written: with two present terms and no term holding a score,
   *  `sorted_terms[0]` raises `IndexError`. */
  datatype TermOutcome = TermsDone(gaps: seq<Spread>) | TermIndexError

  function TermGapsAsWritten(f: Frame): TermOutcome
  {
    match FindCol(f.columns, Stats.TERM_ALIASES)
    case None => TermsDone([])
    case Some(col) =>
      if |GroupKeys(f.rows, col)| < 2 then TermsDone([])
      else
        var d := TermGroups(f.rows, col);
        if d == [] then TermIndexError else TermsDone([SpreadOf(MeansOf(d))])
  }

  /** `_compute_term_gaps` with the empty case guarded: no result when no term holds a score. */
  function TermGaps(f: Frame): seq<Spread>
  {
    match FindCol(f.columns, Stats.TERM_ALIASES)
    case None => []
    case Some(col) =>
      if |GroupKeys(f.rows, col)| < 2 then []
      else
        var d := TermGroups(f.rows, col);
        if d == [] then [] else [SpreadOf(MeansOf(d))]
  }

  method ComputeTermGaps(f: Frame) returns (gaps: seq<Spread>)
    ensures gaps == TermGaps(f)
  {
    var col := FindCol(f.columns, Stats.TERM_ALIASES);
    if col.None? {
      return [];
    }
    var terms := GroupKeys(f.rows, col.value);
    if |terms| < 2 {
      return [];
    }
    var d := CollectGroups(f.rows, col.value, terms, 1);
    if d == [] {
      return [];
    }
    gaps := [SpreadOf(MeansOf(d))];
  }

  /** The term result: at most one, present exactly when a term column holds two terms and some
   *  term holds a score, and then the spread of the term means. */
  lemma TermGapsSpec(f: Frame)
    ensures var r := TermGaps(f);
      var col := FindCol(f.columns, Stats.TERM_ALIASES);
      && |r| <= 1
      && (|r| == 1 <==> col.Some? && |GroupKeys(f.rows, col.value)| >= 2 && TermGroups(f.rows, col.value) != [])
      && (|r| == 1 ==> SpreadSound(r[0], MeansOf(TermGroups(f.rows, col.value))))
  {
    match FindCol(f.columns, Stats.TERM_ALIASES)
    case None =>
    case Some(col) =>
      var d := TermGroups(f.rows, col);
      if |GroupKeys(f.rows, col)| >= 2 && d != [] {
        SpreadSpec(MeansOf(d));
      }
  }

  /** Nothing is stored for a term without a score, so the groups are empty exactly when no term
   *  holds a score. */
  lemma TermGroupsEmpty(rows: seq<Row>, col: string)
    ensures TermGroups(rows, col) == [] <==>
      forall v :: v in GroupKeys(rows, col) ==> Stats.GroupPcts(rows, col, v) == []
  {
    var keys := GroupKeys(rows, col);
    GroupsFromKeys(rows, col, keys, 1);
    GroupsFromOrigin(rows, col, keys, 1);
    if TermGroups(rows, col) != [] {
      var e := TermGroups(rows, col)[0];
      assert e in TermGroups(rows, col);
      assert |e.1| >= 1;
    }
  }

  /** The guarded version differs from the code as written only where the code raises, and the
   *  code raises exactly when a term column holds two terms and no term holds a score. */
  lemma TermGapsAgree(f: Frame)
    ensures TermGapsAsWritten(f).TermsDone? ==> TermGapsAsWritten(f).gaps == TermGaps(f)
    ensures TermGapsAsWritten(f) == TermIndexError <==>
      var col := FindCol(f.columns, Stats.TERM_ALIASES);
      && col.Some? && |GroupKeys(f.rows, col.value)| >= 2
      && forall v :: v in GroupKeys(f.rows, col.value) ==> Stats.GroupPcts(f.rows, col.value, v) == []
    ensures TermGapsAsWritten(f) == TermIndexError ==> TermGaps(f) == []
  {
    match FindCol(f.columns, Stats.TERM_ALIASES)
    case None =>
    case Some(col) =>
      TermGroupsEmpty(f.rows, col);
  }

  /** Rows none of which holds a numeric percentage give no scores. */
  lemma NoScores(rows: seq<Row>)
    requires forall i :: 0 <= i < |rows| ==> !Get(rows[i], "percentage").Num?
    ensures Pcts(rows) == []
  {
    CountWhereZero(Column(rows, "percentage"), IsNum);
  }

  /** A table with a term column of two terms and no numeric percentage makes the code as written
   *  raise, where the guarded version reports nothing. */
  lemma TermIndexErrorWithoutScores(f: Frame)
    requires FindCol(f.columns, Stats.TERM_ALIASES).Some?
    requires |GroupKeys(f.rows, FindCol(f.columns, Stats.TERM_ALIASES).value)| >= 2
    requires forall i :: 0 <= i < |f.rows| ==> !Get(f.rows[i], "percentage").Num?
    ensures TermGapsAsWritten(f) == TermIndexError
    ensures TermGaps(f) == []
  {
    var col := FindCol(f.columns, Stats.TERM_ALIASES).value;
    forall v | v in GroupKeys(f.rows, col) ensures Stats.GroupPcts(f.rows, col, v) == [] {
      var sel := RowsWhere(f.rows, col, v);
      RowsWhereSpec(f.rows, col, v);
      forall i | 0 <= i < |sel| ensures !Get(sel[i], "percentage").Num? {
        var j := IndexOf(f.rows, sel[i]);
        assert f.rows[j] == sel[i];
      }
      NoScores(sel);
    }
    TermGapsAgree(f);
  }

  // ---------------------------------------------------------------------------------------------
  // The report

  datatype GapReport = GapReport(genderGaps: seq<GenderGap>, classGaps: seq<ClassGap>,
                                 regionalGaps: seq<RegionalGap>, termGaps: seq<Spread>)

  /** `compute_gap_analysis`: the four analyses on the table with its percentage column ensured.
   *  The pass mark is accepted and unused. */
  function GapAnalysis(df: Frame, ttest: TTestFn, ftest: FTestFn, disp: Dispersion): GapReport
  {
    var f := EnsurePercentage(df, GAP_SCORE_ALIASES, GAP_MAX_ALIASES);
    GapReport(GenderGaps(f, ttest, disp), ClassGaps(f, ttest, ftest, disp), RegionalGaps(f, ttest, ftest), TermGaps(f))
  }

  method ComputeGapAnalysis(df: Frame, passMark: int, ttest: TTestFn, ftest: FTestFn, disp: Dispersion) returns (r: GapReport)
    ensures r == GapAnalysis(df, ttest, ftest, disp)
  {
    var f := EnsurePercentage(df, GAP_SCORE_ALIASES, GAP_MAX_ALIASES);
    var gender := ComputeGenderGaps(f, ttest, disp);
    var classes := ComputeClassGaps(f, ttest, ftest, disp);
    var regions := ComputeRegionalGaps(f, ttest, ftest);
    var terms := ComputeTermGaps(f);
    r := GapReport(gender, classes, regions, terms);
  }

  /** Every part of the report keeps its promise: sound gender results, at most one class,
   *  regional and term result, and an eta-squared in [0, 1] for an ANOVA of classes. */
  lemma GapAnalysisSpec(df: Frame, ttest: TTestFn, ftest: FTestFn, disp: Dispersion)
    requires Lawful(disp)
    ensures var r := GapAnalysis(df, ttest, ftest, disp);
      && (forall g :: g in r.genderGaps ==> GenderGapSound(g))
      && |r.classGaps| <= 1 && |r.regionalGaps| <= 1 && |r.termGaps| <= 1
      && (forall g :: g in r.classGaps && g.testType == Anova ==> 0.0 <= g.effectSize <= 1.0)
  {
    var f := EnsurePercentage(df, GAP_SCORE_ALIASES, GAP_MAX_ALIASES);
    GenderGapsSpec(f, ttest, disp);
    ClassGapsSpec(f, ttest, ftest, disp);
    ClassGapsEffect(f, ttest, ftest, disp);
    RegionalGapsSpec(f, ttest, ftest);
    TermGapsSpec(f);
  }

  /** Every significant gender or class result carries the p-value that made it significant. */
  lemma SignificantHasPValue(df: Frame, ttest: TTestFn, ftest: FTestFn, disp: Dispersion)
    requires Lawful(disp)
    ensures var r := GapAnalysis(df, ttest, ftest, disp);
      && (forall g :: g in r.genderGaps && g.significant ==> g.pValue.Some?)
      && (forall g :: g in r.classGaps && g.significant ==> g.pValue.Some?)
  {
    var f := EnsurePercentage(df, GAP_SCORE_ALIASES, GAP_MAX_ALIASES);
    GenderGapsSpec(f, ttest, disp);
    ClassGapsPValue(f, ttest, ftest, disp);
  }

  lemma ClassGapsPValue(f: Frame, ttest: TTestFn, ftest: FTestFn, disp: Dispersion)
    requires Lawful(disp)
    ensures forall g :: g in ClassGaps(f, ttest, ftest, disp) && g.significant ==> g.pValue.Some?
  {
    ClassGapsSpec(f, ttest, ftest, disp);
    var r := ClassGaps(f, ttest, ftest, disp);
    if |r| == 1 {
      var d := PairGroups(f.rows, FindCol(f.columns, Stats.CLASS_ALIASES).value);
      ClassGapOfPValue(d, ttest, ftest, disp);
      assert forall g :: g in r ==> g == r[0];
    }
  }

  lemma ClassGapOfPValue(d: Groups, ttest: TTestFn, ftest: FTestFn, disp: Dispersion)
    requires |d| >= 2 && AllPairs(d)
    ensures ClassGapOf(d, ttest, ftest, disp).significant ==> ClassGapOf(d, ttest, ftest, disp).pValue.Some?
  {
  }
}
