/** The three-term calendar comparison of `compute_term_comparison`: canonical term labels,
 *  school, subject, student and class rows per term, term-over-term deltas and trends, the
 *  improver counts, and the exam timeline ordered by exam phase. */
module Terms {
  import opened Wrappers
  import opened Text
  import opened Seqs
  import opened Numeric
  import opened Frames
  import opened Grading
  import opened Stats

  const EXAM_ALIASES: seq<string> := ["exam_name", "assessment", "assessment_name", "exam", "exam_type", "test"]
  const DISPLAY_NAME_ALIASES: seq<string> := ["name", "student_name", "full_name", "student"]
  /** The grade shown where there is no mean. */
  const NO_GRADE: string := "\U{2014}"

  // ---------------------------------------------------------------------------------------------
  // Canonical term labels

  /** `_canonical_term`: missing, blank and "nan" labels become missing; a label with a digit run
   *  becomes "Term <n>" for the integer of the first run; any other label is kept trimmed. */
  function CanonicalTerm(c: Cell): (r: Cell)
    ensures r.Missing? || r.Str?
  {
    if c.Missing? then Missing
    else
      var raw := Trim(CellString(c));
      if raw == "" || Lower(raw) == "nan" then Missing
      else
        match FirstDigitRun(raw)
        case Some(d) => Str("Term " + NatToString(DigitsToNat(d)))
        case None => Str(raw)
  }

  /** The label "Term <n>" of a number. */
  function TermLabel(n: nat): string { "Term " + NatToString(n) }

  /** A prefix without digits does not change the first digit run or the list of runs. */
  lemma {:induction false} RunsAfter(p: string, d: string)
    requires forall i :: 0 <= i < |p| ==> !IsDigit(p[i])
    ensures FirstDigitRun(p + d) == FirstDigitRun(d)
    ensures DigitRuns(p + d) == DigitRuns(d)
    decreases |p|
  {
    if p == [] {
      assert p + d == d;
    } else {
      var s := p + d;
      assert s[0] == p[0] && !IsDigit(s[0]);
      assert s[1..] == p[1..] + d;
      assert FirstDigitRun(s) == FirstDigitRun(s[1..]);
      assert DigitRuns(s) == DigitRuns(s[1..]);
      RunsAfter(p[1..], d);
    }
  }

  lemma FirstRunOfTermLabel(n: nat)
    ensures FirstDigitRun(TermLabel(n)) == Some(NatToString(n))
  {
    var d := NatToString(n);
    NatToStringSpec(n);
    LeadingDigitsOfDigits(d);
    RunsAfter("Term ", d);
  }

  lemma TermLabelIsCanonical(n: nat)
    ensures Trim(TermLabel(n)) == TermLabel(n)
    ensures Lower(TermLabel(n)) != "nan"
  {
    var d := NatToString(n);
    NatToStringSpec(n);
    var s := TermLabel(n);
    assert s[|s| - 1] == d[|d| - 1];
    TrimNoop(s);
    assert Lower(s)[0] == 't';
  }

  /** Canonical labels are fixed points: canonicalising twice changes nothing. */
  lemma CanonicalTermIdempotent(c: Cell)
    ensures CanonicalTerm(CanonicalTerm(c)) == CanonicalTerm(c)
  {
    var r := CanonicalTerm(c);
    if r.Str? {
      var raw := Trim(CellString(c));
      match FirstDigitRun(raw)
      case Some(d) =>
        var n := DigitsToNat(d);
        assert r.s == TermLabel(n);
        TermLabelIsCanonical(n);
        FirstRunOfTermLabel(n);
        NatToStringSpec(n);
      case None =>
        assert r.s == raw;
        StripIdempotent(CellString(c), WHITESPACE);
    }
  }

  /** The examples the labels are meant for. */
  /** Labels that carry the same number name the same term, whatever else they say: "T1",
   *  " term 1 " and "Term 01" all become "Term 1". */
  lemma SameNumberSameTerm(a: string, b: string)
    requires FirstDigitRun(Trim(a)).Some? && FirstDigitRun(Trim(b)).Some?
    requires DigitsToNat(FirstDigitRun(Trim(a)).value) == DigitsToNat(FirstDigitRun(Trim(b)).value)
    ensures CanonicalTerm(Str(a)) == CanonicalTerm(Str(b)) == Str(TermLabel(DigitsToNat(FirstDigitRun(Trim(a)).value)))
  {
    NumberedIsPresent(a);
    NumberedIsPresent(b);
  }

  /** A label with a digit in it is neither blank nor "nan". */
  lemma NumberedIsPresent(a: string)
    requires FirstDigitRun(Trim(a)).Some?
    ensures Trim(a) != "" && Lower(Trim(a)) != "nan"
    ensures CanonicalTerm(Str(a)) == Str(TermLabel(DigitsToNat(FirstDigitRun(Trim(a)).value)))
  {
    var t := Trim(a);
    var i :| 0 <= i < |t| && IsDigit(t[i]);
    assert IsDigit(Lower(t)[i]);
    assert forall j :: 0 <= j < |"nan"| ==> !IsDigit("nan"[j]);
  }

  /** Blank labels are missing. */
  lemma BlankTermIsMissing(k: nat)
    ensures CanonicalTerm(Str(seq(k, i => ' '))) == Missing
  {
    var s := seq(k, i => ' ');
    StripSpec(s, WHITESPACE);
    assert forall c :: c in s ==> c in WHITESPACE;
  }

  /** The canonical term column (`df[term_col].apply(_canonical_term)`). */
  function Canonicalised(rows: seq<Row>, termCol: string): (r: seq<Row>)
    ensures |r| == |rows|
  {
    seq(|rows|, i requires 0 <= i < |rows| => rows[i][termCol := CanonicalTerm(Get(rows[i], termCol))])
  }

  /** The term labels in calendar order: the distinct present labels, by `sort_terms`. */
  function TermList(rows: seq<Row>, termCol: string): seq<string>
  {
    var present := PresentUnique(rows, termCol);
    SortTerms(seq(|present|, i requires 0 <= i < |present| => CellString(present[i])))
  }

  // ---------------------------------------------------------------------------------------------
  // Deltas and trends

  /** The change from the previous point and its classification. */
  datatype Step = Step(delta: Option<real>, trend: string)

  const BASELINE: Step := Step(None, "baseline")

  /** The school rows compare the two reported means themselves with a margin of 1 and report
   *  their rounded difference; a missing side is "unknown". */
  function SchoolStep(prev: Option<real>, curr: Option<real>): Step
  {
    if prev.Some? && curr.Some? then
      Step(Some(Round(curr.value - prev.value, 2)),
        if curr.value > prev.value + 1.0 then "improving"
        else if curr.value < prev.value - 1.0 then "declining"
        else "stable")
    else Step(None, "unknown")
  }

  lemma SchoolStepSpec(prev: Option<real>, curr: Option<real>)
    ensures var s := SchoolStep(prev, curr);
      && (s.delta.Some? <==> prev.Some? && curr.Some?)
      && (s.trend == "unknown" <==> prev.None? || curr.None?)
      && (s.trend == "improving" <==> prev.Some? && curr.Some? && curr.value > prev.value + 1.0)
      && (s.trend == "declining" <==> prev.Some? && curr.Some? && curr.value < prev.value - 1.0)
      && (s.trend == "stable" <==> prev.Some? && curr.Some? && prev.value - 1.0 <= curr.value <= prev.value + 1.0)
  {
  }

  /** The rounded delta classified with a margin of 1, `none` when there is no delta. */
  function DeltaTrend(delta: Option<real>, none: string): string
  {
    if delta.Some? && delta.value > 1.0 then "improving"
    else if delta.Some? && delta.value < -1.0 then "declining"
    else if delta.Some? then "stable"
    else none
  }

  lemma DeltaTrendSpec(delta: Option<real>, none: string)
    requires none != "improving" && none != "declining" && none != "stable"
    ensures DeltaTrend(delta, none) == "improving" <==> delta.Some? && delta.value > 1.0
    ensures DeltaTrend(delta, none) == "declining" <==> delta.Some? && delta.value < -1.0
    ensures DeltaTrend(delta, none) == "stable" <==> delta.Some? && -1.0 <= delta.value <= 1.0
    ensures DeltaTrend(delta, none) == none <==> delta.None?
  {
  }

  function RoundedDelta(prev: Option<real>, curr: Option<real>): (r: Option<real>)
    ensures r.Some? <==> prev.Some? && curr.Some?
  {
    if prev.Some? && curr.Some? then Some(Round(curr.value - prev.value, 2)) else None
  }

  /** Subject and student rows: the rounded delta from the previous term, "baseline" without one. */
  function SeriesStep(prev: Option<real>, curr: Option<real>): Step
  {
    var d := RoundedDelta(prev, curr);
    Step(d, DeltaTrend(d, "baseline"))
  }

  /** Exam points: the rounded delta from the previous exam, "unknown" without one. */
  function ExamStep(prev: Option<real>, curr: Option<real>): Step
  {
    var d := RoundedDelta(prev, curr);
    Step(d, DeltaTrend(d, "unknown"))
  }

  /** Which neighbour rule a timeline uses. */
  datatype Rule = School | Exam

  function StepBy(rule: Rule, prev: Option<real>, curr: Option<real>): Step
  {
    match rule
    case School => SchoolStep(prev, curr)
    case Exam => ExamStep(prev, curr)
  }

  /** The steps of a timeline: the first point is the baseline, every later one is compared with
   *  its predecessor. */
  function TimelineSteps(rule: Rule, means: seq<Option<real>>): (r: seq<Step>)
    ensures |r| == |means|
  {
    seq(|means|, i requires 0 <= i < |means| => if i == 0 then BASELINE else StepBy(rule, means[i - 1], means[i]))
  }

  /** The loops that write `delta` and `trend` into `school_by_term[i]` and `exam_timeline[i]`:
   *  every later point first, then the baseline at index 0. */
  method AnnotateTimeline(rule: Rule, means: seq<Option<real>>, steps: array<Step>)
    requires steps.Length == |means|
    modifies steps
    ensures steps[..] == TimelineSteps(rule, means)
  {
    var i := 1;
    while i < steps.Length
      invariant 1 <= i <= steps.Length || steps.Length == 0
      invariant forall k :: 1 <= k < i && k < steps.Length ==> steps[k] == StepBy(rule, means[k - 1], means[k])
    {
      steps[i] := StepBy(rule, means[i - 1], means[i]);
      i := i + 1;
    }
    if steps.Length > 0 {
      steps[0] := BASELINE;
    }
  }

  /** Only the first point is the baseline, and a later point is "unknown" exactly when one of
   *  the two means is missing. */
  lemma TimelineStepsSpec(rule: Rule, means: seq<Option<real>>, i: int)
    requires 0 <= i < |means|
    ensures var s := TimelineSteps(rule, means)[i];
      && (i == 0 ==> s == BASELINE)
      && (i > 0 ==> s.trend != "baseline" && (s.trend == "unknown" <==> means[i - 1].None? || means[i].None?))
      && (i > 0 ==> (s.delta.Some? <==> means[i - 1].Some? && means[i].Some?))
  {
  }

  /** The previous mean the series loop carries into point `k` (`prev_mean`). */
  function PrevMean(means: seq<Option<real>>, k: int): Option<real>
    requires 0 <= k <= |means|
  {
    if k == 0 then None else means[k - 1]
  }

  /** The present means, in order (`term_means`). */
  function Present(means: seq<Option<real>>): (r: seq<real>)
    ensures |r| <= |means|
  {
    if means == [] then [] else Present(means[..|means| - 1]) + PresentCell(means[|means| - 1])
  }

  function PresentCell(m: Option<real>): seq<real>
  {
    if m.Some? then [m.value] else []
  }

  /** The steps of a subject or student series: each term against the one before it. */
  function SeriesSteps(means: seq<Option<real>>): (r: seq<Step>)
    ensures |r| == |means|
  {
    seq(|means|, k requires 0 <= k < |means| => SeriesStep(PrevMean(means, k), means[k]))
  }

  /** The subject and student term loops: `prev_mean` is threaded from each term to the next
   *  (even when missing), and the present means are collected. */
  method SeriesTrend(means: seq<Option<real>>) returns (steps: seq<Step>, termMeans: seq<real>)
    ensures steps == SeriesSteps(means)
    ensures termMeans == Present(means)
  {
    steps, termMeans := [], [];
    var prev: Option<real> := None;
    var k := 0;
    while k < |means|
      invariant 0 <= k <= |means|
      invariant prev == PrevMean(means, k)
      invariant steps == SeriesSteps(means)[..k]
      invariant termMeans == Present(means[..k])
    {
      assert means[..k + 1][..k] == means[..k];
      assert Present(means[..k + 1]) == termMeans + PresentCell(means[k]);
      assert SeriesSteps(means)[..k + 1] == steps + [SeriesSteps(means)[k]];
      var mean := means[k];
      steps := steps + [SeriesStep(prev, mean)];
      if mean.Some? {
        termMeans := termMeans + [mean.value];
      } else {
        assert termMeans + PresentCell(mean) == termMeans;
      }
      prev := mean;
      k := k + 1;
    }
    assert means[..k] == means;
  }

  /** A point of a series is "baseline" exactly when it is the first or either neighbour mean is
   *  missing. */
  lemma SeriesBaseline(means: seq<Option<real>>, k: int)
    requires 0 <= k < |means|
    ensures SeriesSteps(means)[k].trend == "baseline" <==> k == 0 || means[k - 1].None? || means[k].None?
  {
  }

  /** The number of present means. */
  lemma {:induction false} PresentCount(means: seq<Option<real>>)
    ensures |Present(means)| == CountWhere(means, IsSomeReal)
  {
    if means != [] {
      PresentCount(means[..|means| - 1]);
    }
  }

  /** The present means are exactly the means that are there. */
  lemma {:induction false} PresentSpec(means: seq<Option<real>>)
    ensures forall x :: x in Present(means) ==> Some(x) in means
    ensures forall k :: 0 <= k < |means| && means[k].Some? ==> means[k].value in Present(means)
  {
    if means != [] {
      var init := means[..|means| - 1];
      PresentSpec(init);
      assert Present(means) == Present(init) + PresentCell(means[|means| - 1]);
      forall x | x in Present(means) ensures Some(x) in means {
        if x in Present(init) {
          assert Some(x) in init;
        }
      }
      forall k | 0 <= k < |means| && means[k].Some? ensures means[k].value in Present(means) {
        if k < |means| - 1 {
          assert means[k] == init[k];
        }
      }
    }
  }

  predicate IsSomeReal(m: Option<real>) { m.Some? }

  /** The overall trend of a student from the slope of the present term means, rounded to three
   *  places; "insufficient_data" with fewer than two. */
  function OverallTrend(termMeans: seq<real>): (r: (string, Option<real>))
    ensures r.1.None? <==> |termMeans| < 2
  {
    if |termMeans| >= 2 then
      var s := Slope(termMeans);
      (if s > 0.5 then "improving" else if s < -0.5 then "declining" else "stable", Some(Round(s, 3)))
    else ("insufficient_data", None)
  }

  /** With two terms the overall trend follows their difference; a flat series is stable. */
  lemma OverallTrendSpec(a: real, b: real, ys: seq<real>)
    ensures OverallTrend([a, b]).0 == (if b - a > 0.5 then "improving" else if b - a < -0.5 then "declining" else "stable")
    ensures |ys| >= 2 && Constant(ys) ==> OverallTrend(ys).0 == "stable"
  {
    SlopeOfTwo(a, b);
    if |ys| >= 2 && Constant(ys) {
      SlopeOfConstant(ys);
    }
  }

  // ---------------------------------------------------------------------------------------------
  // Rows per term

  /** A point of `school_by_term` or `exam_timeline` (which has an exam and no pass counts). */
  datatype Point = Point(
    term: string,
    exam: Option<string>,
    mean: Option<real>,
    passRate: real,
    passCount: Option<nat>,
    failCount: Option<nat>,
    studentCount: nat,
    grade: string,
    step: Step)

  /** The percentages of the rows whose `col` renders as `s`. */
  function PctsWhere(rows: seq<Row>, col: string, s: string): seq<real>
  {
    Pcts(RowsRendering(rows, col, s))
  }

  /** The grade of a mean, or a dash without one. */
  function GradeOf(mean: Option<real>): string
  {
    if mean.Some? then GradeLabel(Num(mean.value)) else NO_GRADE
  }

  function StudentCount(rows: seq<Row>, studentCol: Option<string>): nat
  {
    if studentCol.Some? then NUnique(rows, studentCol.value) else |rows|
  }

  function SchoolPoint(rows: seq<Row>, termCol: string, studentCol: Option<string>, term: string, passMark: int): Point
  {
    var tdf := RowsRendering(rows, termCol, term);
    var pct := Pcts(tdf);
    var t := passMark as real;
    Point(term, None, SafeFloat(Mean(pct)), Rate(CountAtLeast(pct, t), |pct|),
      Some(CountAtLeast(pct, t)), Some(CountBelow(pct, t)), StudentCount(tdf, studentCol), GradeOf(Mean(pct)), BASELINE)
  }

  function Means(points: seq<Point>): (r: seq<Option<real>>)
    ensures |r| == |points|
  {
    seq(|points|, i requires 0 <= i < |points| => points[i].mean)
  }

  function WithSteps(points: seq<Point>, steps: seq<Step>): (r: seq<Point>)
    requires |steps| == |points|
    ensures |r| == |points|
  {
    seq(|points|, i requires 0 <= i < |points| => points[i].(step := steps[i]))
  }

  function Annotated(rule: Rule, points: seq<Point>): (r: seq<Point>)
    ensures |r| == |points|
  {
    WithSteps(points, TimelineSteps(rule, Means(points)))
  }

  /** `school_by_term`. */
  function SchoolByTerm(rows: seq<Row>, termCol: string, studentCol: Option<string>, terms: seq<string>, passMark: int): (r: seq<Point>)
    ensures |r| == |terms|
  {
    Annotated(School, seq(|terms|, i requires 0 <= i < |terms| => SchoolPoint(rows, termCol, studentCol, terms[i], passMark)))
  }

  /** A subject's cell for one term. */
  datatype SeriesCell = SeriesCell(mean: Option<real>, passRate: real, grade: string, step: Step, passCount: nat, failCount: nat)

  /** The term cells of one subject or student: its rows of each term with the threaded steps. */
  function SeriesCells(rows: seq<Row>, termCol: string, terms: seq<string>, passMark: int): (r: seq<(string, SeriesCell)>)
    ensures |r| == |terms|
  {
    var pcts := seq(|terms|, i requires 0 <= i < |terms| => PctsWhere(rows, termCol, terms[i]));
    var means := seq(|terms|, i requires 0 <= i < |terms| => SafeFloat(Mean(pcts[i])));
    var t := passMark as real;
    seq(|terms|, i requires 0 <= i < |terms| =>
      (terms[i], SeriesCell(means[i], Rate(CountAtLeast(pcts[i], t), |pcts[i]|), GradeOf(means[i]),
        SeriesStep(PrevMean(means, i), means[i]), CountAtLeast(pcts[i], t), CountBelow(pcts[i], t))))
  }

  datatype SubjectRow = SubjectRow(subject: string, terms: seq<(string, SeriesCell)>)

  /** `subjects_by_term`: one row per subject key, ascending. */
  function SubjectsByTerm(rows: seq<Row>, termCol: string, subjectCol: string, terms: seq<string>, passMark: int): (r: seq<SubjectRow>)
  {
    var keys := GroupKeys(rows, subjectCol);
    seq(|keys|, i requires 0 <= i < |keys| =>
      var s := CellString(keys[i]);
      SubjectRow(s, SeriesCells(RowsRendering(rows, subjectCol, s), termCol, terms, passMark)))
  }

  /** `subject_term_matrix`: the mean of each subject in each term. */
  function SubjectTermMatrix(subjects: seq<SubjectRow>): (r: seq<(string, seq<(string, Option<real>)>)>)
    ensures |r| == |subjects|
  {
    seq(|subjects|, i requires 0 <= i < |subjects| =>
      (subjects[i].subject, seq(|subjects[i].terms|, j requires 0 <= j < |subjects[i].terms| =>
        (subjects[i].terms[j].0, subjects[i].terms[j].1.mean))))
  }

  /** A student's row of `students_by_term`. */
  datatype StudentRow = StudentRow(
    studentId: string,
    name: string,
    className: Option<string>,
    terms: seq<(string, SeriesCell)>,
    overallTrend: string,
    trendSlope: Option<real>,
    rank: nat)

  function FirstRow(rows: seq<Row>): Row
  {
    if rows == [] then map[] else rows[0]
  }

  /** The name shown for a student: the trimmed name cell, or the id when it is missing, blank
   *  or "nan". */
  function DisplayName(nameCell: Cell, sid: string): string
  {
    if nameCell.Missing? then sid
    else
      var s := Trim(CellString(nameCell));
      if s == "" || Lower(s) == "nan" then sid else s
  }

  function TermMeansOf(cells: seq<(string, SeriesCell)>): (r: seq<Option<real>>)
    ensures |r| == |cells|
  {
    seq(|cells|, i requires 0 <= i < |cells| => cells[i].1.mean)
  }

  function StudentRowOf(rows: seq<Row>, termCol: string, studentCol: string, nameCol: Option<string>, classCol: Option<string>,
                        sid: Cell, terms: seq<string>, passMark: int): StudentRow
  {
    var id := CellString(sid);
    var stdf := RowsRendering(rows, studentCol, id);
    var first := FirstRow(stdf);
    var cells := SeriesCells(stdf, termCol, terms, passMark);
    var trend := OverallTrend(Present(TermMeansOf(cells)));
    StudentRow(id,
      if nameCol.Some? then DisplayName(Get(first, nameCol.value), id) else id,
      if classCol.Some? then Some(CellString(Get(first, classCol.value))) else None,
      cells, trend.0, trend.1, 0)
  }

  /** The mean a row has for `term` (the last entry with that key, as a dict keeps it). */
  function CellMean(cells: seq<(string, SeriesCell)>, term: string): Option<real>
  {
    if cells == [] then None
    else if cells[|cells| - 1].0 == term then cells[|cells| - 1].1.mean
    else CellMean(cells[..|cells| - 1], term)
  }

  /** The sort key of a student: the latest term's mean, or 0 (`... .get("mean") or 0`). */
  function LatestOrZero(s: StudentRow, lastTerm: string): real
  {
    var m := CellMean(s.terms, lastTerm);
    if m.Some? then m.value else 0.0
  }

  /** The mean of a row's last term cell, or 0. */
  function LastMeanOrZero(s: StudentRow): real
  {
    if s.terms == [] then 0.0
    else
      var m := s.terms[|s.terms| - 1].1.mean;
      if m.Some? then m.value else 0.0
  }

  /** A row whose cells end with the latest term sorts by that term's mean. */
  lemma LatestIsLast(s: StudentRow, lastTerm: string)
    requires s.terms != [] && s.terms[|s.terms| - 1].0 == lastTerm
    ensures LatestOrZero(s, lastTerm) == LastMeanOrZero(s)
  {
  }

  /** Descending order of the latest mean. */
  predicate LatestDescLe(a: StudentRow, b: StudentRow)
  {
    LastMeanOrZero(a) >= LastMeanOrZero(b)
  }

  /** `students_by_term.sort(key=latest mean or 0, reverse=True)`, only when there is a term. */
  function SortStudents(students: seq<StudentRow>, terms: seq<string>): (r: seq<StudentRow>)
  {
    if terms == [] then students else SortBy(students, LatestDescLe)
  }

  /** The sorted students are the same students, in descending order of latest mean, with rows of
   *  equal mean in their original order. */
  lemma SortStudentsSpec(students: seq<StudentRow>, terms: seq<string>, x: StudentRow)
    requires terms != []
    ensures var r := SortStudents(students, terms);
      && multiset(r) == multiset(students)
      && (forall i, j :: 0 <= i < j < |r| ==> LastMeanOrZero(r[i]) >= LastMeanOrZero(r[j]))
      && Tied(r, x, LatestDescLe) == Tied(students, x, LatestDescLe)
  {
    assert TotalPreorder(LatestDescLe);
    SortByPerm(students, LatestDescLe);
    SortBySorted(students, LatestDescLe);
    SortByStable(students, x, LatestDescLe);
  }

  /** The loop `for i, s in enumerate(students_by_term): s["rank"] = i + 1`, in place. */
  method AssignRanks(students: array<StudentRow>)
    modifies students
    ensures students[..] == RankedRows(old(students[..]))
  {
    var i := 0;
    while i < students.Length
      invariant 0 <= i <= students.Length
      invariant forall k :: 0 <= k < i ==> students[k] == old(students[k]).(rank := k + 1)
      invariant forall k :: i <= k < students.Length ==> students[k] == old(students[k])
    {
      students[i] := students[i].(rank := i + 1);
      i := i + 1;
    }
  }

  function RankedRows(students: seq<StudentRow>): (r: seq<StudentRow>)
    ensures |r| == |students|
  {
    seq(|students|, i requires 0 <= i < |students| => students[i].(rank := i + 1))
  }

  /** Ranks run 1..n without gaps or repeats, and nothing else about a row changes. */
  lemma RankedRowsSpec(students: seq<StudentRow>)
    ensures var r := RankedRows(students);
      && (forall i :: 0 <= i < |r| ==> 1 <= r[i].rank <= |r| && r[i].(rank := 0) == students[i].(rank := 0))
      && (forall i, j :: 0 <= i < j < |r| ==> r[i].rank < r[j].rank)
  {
  }

  /** `students_by_term`: one row per present student id in first-appearance order, sorted and
   *  ranked. */
  function StudentsByTerm(rows: seq<Row>, termCol: string, studentCol: string, nameCol: Option<string>, classCol: Option<string>,
                          terms: seq<string>, passMark: int): seq<StudentRow>
  {
    var ids := PresentUnique(rows, studentCol);
    var unsorted := seq(|ids|, i requires 0 <= i < |ids| => StudentRowOf(rows, termCol, studentCol, nameCol, classCol, ids[i], terms, passMark));
    RankedRows(SortStudents(unsorted, terms))
  }

  datatype ClassCell = ClassCell(mean: Option<real>, passRate: real, grade: string)
  datatype ClassRow = ClassRow(className: string, terms: seq<(string, ClassCell)>)

  /** `class_by_term`: one row per class key, ascending. */
  function ClassByTerm(rows: seq<Row>, termCol: string, classCol: string, terms: seq<string>, passMark: int): seq<ClassRow>
  {
    var keys := GroupKeys(rows, classCol);
    seq(|keys|, i requires 0 <= i < |keys| =>
      var c := CellString(keys[i]);
      var cdf := RowsRendering(rows, classCol, c);
      ClassRow(c, seq(|terms|, j requires 0 <= j < |terms| =>
        var pct := PctsWhere(cdf, termCol, terms[j]);
        (terms[j], ClassCell(SafeFloat(Mean(pct)), Rate(CountAtLeast(pct, passMark as real), |pct|), GradeOf(SafeFloat(Mean(pct))))))))
  }

  // ---------------------------------------------------------------------------------------------
  // Improvers and decliners

  /** A student with both a first-term and a last-term mean, and the rounded change. */
  datatype DeltaEntry = DeltaEntry(name: string, studentId: string, delta: real)

  function TotalDelta(s: StudentRow, firstTerm: string, lastTerm: string): Option<real>
  {
    RoundedDelta(CellMean(s.terms, firstTerm), CellMean(s.terms, lastTerm))
  }

  /** The entry one student contributes: one when both means are present, none otherwise. */
  function DeltaCell(s: StudentRow, firstTerm: string, lastTerm: string): (r: seq<DeltaEntry>)
    ensures |r| <= 1
  {
    var d := TotalDelta(s, firstTerm, lastTerm);
    if d.Some? then [DeltaEntry(s.name, s.studentId, d.value)] else []
  }

  /** The students that carry `_total_delta`, in list order. */
  function DeltaEntries(students: seq<StudentRow>, firstTerm: string, lastTerm: string): (r: seq<DeltaEntry>)
    ensures |r| <= |students|
  {
    if students == [] then []
    else DeltaEntries(students[..|students| - 1], firstTerm, lastTerm) + DeltaCell(students[|students| - 1], firstTerm, lastTerm)
  }

  predicate IsImproved(e: DeltaEntry) { e.delta > 1.0 }
  predicate IsDeclined(e: DeltaEntry) { e.delta < -1.0 }
  predicate IsStable(e: DeltaEntry) { -1.0 <= e.delta <= 1.0 }

  /** The counting loop: each student with both means adds to exactly one count. */
  method CountDeltas(students: seq<StudentRow>, firstTerm: string, lastTerm: string)
    returns (improved: nat, declined: nat, stable: nat, entries: seq<DeltaEntry>)
    ensures entries == DeltaEntries(students, firstTerm, lastTerm)
    ensures improved == CountWhere(entries, IsImproved)
    ensures declined == CountWhere(entries, IsDeclined)
    ensures stable == CountWhere(entries, IsStable)
  {
    improved, declined, stable, entries := 0, 0, 0, [];
    var k := 0;
    while k < |students|
      invariant 0 <= k <= |students|
      invariant entries == DeltaEntries(students[..k], firstTerm, lastTerm)
      invariant improved == CountWhere(entries, IsImproved)
      invariant declined == CountWhere(entries, IsDeclined)
      invariant stable == CountWhere(entries, IsStable)
    {
      assert students[..k + 1][..k] == students[..k];
      assert DeltaEntries(students[..k + 1], firstTerm, lastTerm) == entries + DeltaCell(students[k], firstTerm, lastTerm);
      var d := TotalDelta(students[k], firstTerm, lastTerm);
      if d.Some? {
        var e := DeltaEntry(students[k].name, students[k].studentId, d.value);
        CountStep(entries, e);
        entries := entries + [e];
        if d.value > 1.0 {
          improved := improved + 1;
        } else if d.value < -1.0 {
          declined := declined + 1;
        } else {
          stable := stable + 1;
        }
      } else {
        assert entries + DeltaCell(students[k], firstTerm, lastTerm) == entries;
      }
      k := k + 1;
    }
    assert students[..k] == students;
  }

  /** Appending one entry adds one to the count it falls under. */
  lemma CountStep(entries: seq<DeltaEntry>, e: DeltaEntry)
    ensures CountWhere(entries + [e], IsImproved) == CountWhere(entries, IsImproved) + (if e.delta > 1.0 then 1 else 0)
    ensures CountWhere(entries + [e], IsDeclined) == CountWhere(entries, IsDeclined) + (if e.delta < -1.0 then 1 else 0)
    ensures CountWhere(entries + [e], IsStable) == CountWhere(entries, IsStable) + (if -1.0 <= e.delta <= 1.0 then 1 else 0)
  {
    CountWhereAppend(entries, e, IsImproved);
    CountWhereAppend(entries, e, IsDeclined);
    CountWhereAppend(entries, e, IsStable);
  }

  lemma CountWhereAppend<T>(s: seq<T>, x: T, p: T -> bool)
    ensures CountWhere(s + [x], p) == CountWhere(s, p) + (if p(x) then 1 else 0)
  {
    assert (s + [x])[..|s|] == s;
  }

  /** improved + declined + stable is the number of students with both means. */
  lemma {:induction false} DeltaPartition(entries: seq<DeltaEntry>)
    ensures CountWhere(entries, IsImproved) + CountWhere(entries, IsDeclined) + CountWhere(entries, IsStable) == |entries|
  {
    if entries != [] {
      DeltaPartition(entries[..|entries| - 1]);
    }
  }

  /** Every student with both means has an entry, and every entry comes from such a student. */
  lemma {:induction false} DeltaEntriesSpec(students: seq<StudentRow>, firstTerm: string, lastTerm: string)
    ensures forall i :: 0 <= i < |students| && TotalDelta(students[i], firstTerm, lastTerm).Some? ==>
      DeltaEntry(students[i].name, students[i].studentId, TotalDelta(students[i], firstTerm, lastTerm).value) in DeltaEntries(students, firstTerm, lastTerm)
    ensures |DeltaEntries(students, firstTerm, lastTerm)| == CountWhere(seq(|students|, i requires 0 <= i < |students| => TotalDelta(students[i], firstTerm, lastTerm)), IsSomeReal)
  {
    if students != [] {
      var init := students[..|students| - 1];
      DeltaEntriesSpec(init, firstTerm, lastTerm);
      var ds := seq(|students|, i requires 0 <= i < |students| => TotalDelta(students[i], firstTerm, lastTerm));
      var ds' := seq(|init|, i requires 0 <= i < |init| => TotalDelta(init[i], firstTerm, lastTerm));
      assert ds[..|ds| - 1] == ds';
    }
  }

  predicate DeltaDescLe(a: DeltaEntry, b: DeltaEntry) { a.delta >= b.delta }

  /** `top_improvers` and `top_decliners`: the first five of the descending delta order, and the
   *  last five of it reversed. */
  function Movers(entries: seq<DeltaEntry>): (r: (seq<DeltaEntry>, seq<DeltaEntry>))
  {
    var ranked := SortBy(entries, DeltaDescLe);
    (Take(ranked, 5), Reverse(TakeLast(ranked, 5)))
  }

  /** At most five improvers, largest change first; at most five decliners, smallest change first;
   *  both drawn from the entries. */
  lemma MoversSpec(entries: seq<DeltaEntry>)
    ensures var (top, bottom) := Movers(entries);
      && |top| <= 5 && |bottom| <= 5
      && (forall i, j :: 0 <= i < j < |top| ==> top[i].delta >= top[j].delta)
      && (forall i, j :: 0 <= i < j < |bottom| ==> bottom[i].delta <= bottom[j].delta)
      && (forall x :: x in top ==> x in entries)
      && (forall x :: x in bottom ==> x in entries)
  {
    var ranked := SortBy(entries, DeltaDescLe);
    RankedDeltas(entries);
    TopOf(ranked);
    BottomOf(ranked);
  }

  lemma RankedDeltas(entries: seq<DeltaEntry>)
    ensures SortedBy(SortBy(entries, DeltaDescLe), DeltaDescLe)
    ensures forall x :: x in SortBy(entries, DeltaDescLe) ==> x in entries
  {
    assert TotalPreorder(DeltaDescLe);
    SortByPerm(entries, DeltaDescLe);
    SortBySorted(entries, DeltaDescLe);
    forall x | x in SortBy(entries, DeltaDescLe) ensures x in entries {
      assert x in multiset(SortBy(entries, DeltaDescLe));
    }
  }

  lemma TopOf(ranked: seq<DeltaEntry>)
    requires SortedBy(ranked, DeltaDescLe)
    ensures var top := Take(ranked, 5);
      && (forall i, j :: 0 <= i < j < |top| ==> top[i].delta >= top[j].delta)
      && (forall x :: x in top ==> x in ranked)
  {
    var top := Take(ranked, 5);
    forall i, j | 0 <= i < j < |top| ensures top[i].delta >= top[j].delta {
      assert DeltaDescLe(ranked[i], ranked[j]);
    }
  }

  lemma BottomOf(ranked: seq<DeltaEntry>)
    requires SortedBy(ranked, DeltaDescLe)
    ensures var bottom := Reverse(TakeLast(ranked, 5));
      && (forall i, j :: 0 <= i < j < |bottom| ==> bottom[i].delta <= bottom[j].delta)
      && (forall x :: x in bottom ==> x in ranked)
  {
    var tail := TakeLast(ranked, 5);
    BottomAt(ranked);
    var bottom := Reverse(tail);
    forall i, j | 0 <= i < j < |bottom| ensures bottom[i].delta <= bottom[j].delta {
      assert DeltaDescLe(ranked[|ranked| - 1 - j], ranked[|ranked| - 1 - i]);
    }
  }

  /** The decliners read the ranking from its end. */
  lemma BottomAt(ranked: seq<DeltaEntry>)
    ensures var bottom := Reverse(TakeLast(ranked, 5));
      && |bottom| <= |ranked|
      && (forall i :: 0 <= i < |bottom| ==> bottom[i] == ranked[|ranked| - 1 - i])
      && (forall x :: x in bottom ==> x in ranked)
  {
    var tail := TakeLast(ranked, 5);
    var bottom := Reverse(tail);
    forall i | 0 <= i < |bottom| ensures bottom[i] == ranked[|ranked| - 1 - i] {
      assert bottom[i] == tail[|tail| - 1 - i];
    }
  }

  // ---------------------------------------------------------------------------------------------
  // Exam timeline

  /** The sort key of an exam label (`_exam_key`): its phase, the first number in it (0 without
   *  one), and the trimmed lower-case label. */
  datatype ExamKey = ExamKey(phase: nat, n: nat, s: string)

  const OPENER_WORDS: seq<string> := ["opener", "opening", "baseline", "entry"]
  const MID_WORDS: seq<string> := ["cat", "continuous", "mid", "midterm"]
  const END_WORDS: seq<string> := ["end", "final", "eot"]

  /** `any(k in s for k in words)`. */
  predicate AnyIn(s: string, words: seq<string>)
  {
    words != [] && (Contains(s, words[0]) || AnyIn(s, words[1..]))
  }

  /** The first phase whose word list meets the label; 4 when none does. */
  function Phase(s: string): (r: nat)
    ensures 1 <= r <= 4
  {
    if AnyIn(s, OPENER_WORDS) then 1
    else if AnyIn(s, MID_WORDS) then 2
    else if AnyIn(s, END_WORDS) then 3
    else 4
  }

  function ExamKeyOf(exam: Cell): ExamKey
  {
    var s := Lower(Trim(CellString(exam)));
    var nums := DigitRuns(s);
    ExamKey(Phase(s), if nums == [] then 0 else DigitsToNat(nums[0]), s)
  }

  /** Python's tuple order on the keys. */
  predicate ExamKeyLe(a: ExamKey, b: ExamKey)
  {
    a.phase < b.phase || (a.phase == b.phase && (a.n < b.n || (a.n == b.n && StrLe(a.s, b.s))))
  }

  predicate ExamLe(a: Cell, b: Cell)
  {
    ExamKeyLe(ExamKeyOf(a), ExamKeyOf(b))
  }

  lemma ExamLeTotalPreorder()
    ensures TotalPreorder(ExamLe)
  {
    forall a, b ensures ExamLe(a, b) || ExamLe(b, a) {
      StrLeTotal(ExamKeyOf(a).s, ExamKeyOf(b).s);
    }
    forall a, b, c | ExamLe(a, b) && ExamLe(b, c) ensures ExamLe(a, c) {
      var ka, kb, kc := ExamKeyOf(a), ExamKeyOf(b), ExamKeyOf(c);
      if ka.phase == kb.phase == kc.phase && ka.n == kb.n == kc.n {
        StrLeTrans(ka.s, kb.s, kc.s);
      }
    }
  }

  /** A label meets a word list exactly when it contains one of its words. */
  lemma {:induction false} AnyInSpec(s: string, words: seq<string>)
    ensures AnyIn(s, words) <==> exists w :: w in words && Contains(s, w)
    decreases |words|
  {
    if words != [] {
      AnyInSpec(s, words[1..]);
      if AnyIn(s, words) {
        if Contains(s, words[0]) {
          assert words[0] in words;
        } else {
          var w :| w in words[1..] && Contains(s, w);
          assert w in words;
        }
      }
      if exists w :: w in words && Contains(s, w) {
        var w :| w in words && Contains(s, w);
        if w != words[0] {
          assert w in words[1..];
        }
      }
    }
  }

  /** The phase of a label is the first list that has a word in it; 4 when none does. */
  lemma PhaseSpec(s: string)
    ensures Phase(s) == 1 <==> exists w :: w in OPENER_WORDS && Contains(s, w)
    ensures Phase(s) == 2 <==> (forall w :: w in OPENER_WORDS ==> !Contains(s, w)) && exists w :: w in MID_WORDS && Contains(s, w)
    ensures Phase(s) == 4 <==> forall w :: w in OPENER_WORDS + MID_WORDS + END_WORDS ==> !Contains(s, w)
  {
    AnyInSpec(s, OPENER_WORDS);
    AnyInSpec(s, MID_WORDS);
    AnyInSpec(s, END_WORDS);
  }

  /** An earlier phase always sorts first, whatever its number or text. */
  lemma EarlierPhaseFirst(a: Cell, b: Cell)
    requires ExamKeyOf(a).phase < ExamKeyOf(b).phase
    ensures ExamLe(a, b) && !ExamLe(b, a)
  {
  }

  /** Within a phase, the first number decides: "CAT 2" comes after "CAT 1" and before "CAT 10". */
  lemma NumberOrdersWithinPhase(a: Cell, b: Cell)
    requires ExamKeyOf(a).phase == ExamKeyOf(b).phase && ExamKeyOf(a).n < ExamKeyOf(b).n
    ensures ExamLe(a, b) && !ExamLe(b, a)
  {
  }

  /** "Opener" is an opener paper with no number. */
  lemma ExamKeyOpener()
    ensures ExamKeyOf(Str("Opener")) == ExamKey(1, 0, "opener")
  {
    TrimNoop("Opener");
    assert Lower("Opener") == "opener";
    assert Contains("opener", "opener");
  }

  /** The exams of one term: the distinct present labels in first-appearance order, stably sorted
   *  by exam key. */
  function ExamsOf(tdf: seq<Row>, examCol: string): seq<Cell>
  {
    SortBy(PresentUnique(tdf, examCol), ExamLe)
  }

  /** The exams of a term are its present labels, each once, in exam-key order. */
  lemma ExamsOfSpec(tdf: seq<Row>, examCol: string)
    ensures var e := ExamsOf(tdf, examCol);
      && multiset(e) == multiset(PresentUnique(tdf, examCol))
      && SortedBy(e, ExamLe)
  {
    ExamLeTotalPreorder();
    SortByPerm(PresentUnique(tdf, examCol), ExamLe);
    SortBySorted(PresentUnique(tdf, examCol), ExamLe);
  }

  function ExamPoint(tdf: seq<Row>, examCol: string, studentCol: Option<string>, term: string, exam: Cell, passMark: int): Point
  {
    var e := CellString(exam);
    var edf := RowsRendering(tdf, examCol, e);
    var pct := Pcts(edf);
    Point(term, Some(e), SafeFloat(Mean(pct)), Rate(CountAtLeast(pct, passMark as real), |pct|), None, None,
      StudentCount(edf, studentCol), GradeOf(SafeFloat(Mean(pct))), BASELINE)
  }

  function TermExams(rows: seq<Row>, termCol: string, examCol: string, studentCol: Option<string>, term: string, passMark: int): seq<Point>
  {
    var tdf := RowsRendering(rows, termCol, term);
    var exams := ExamsOf(tdf, examCol);
    seq(|exams|, i requires 0 <= i < |exams| => ExamPoint(tdf, examCol, studentCol, term, exams[i], passMark))
  }

  /** The exam points of every term in calendar order, before the steps are written. */
  function ExamPoints(rows: seq<Row>, termCol: string, examCol: string, studentCol: Option<string>, terms: seq<string>, passMark: int): seq<Point>
  {
    if terms == [] then []
    else
      ExamPoints(rows, termCol, examCol, studentCol, terms[..|terms| - 1], passMark)
      + TermExams(rows, termCol, examCol, studentCol, terms[|terms| - 1], passMark)
  }

  /** The label of an exam point, `f"{term} - {exam}"`. */
  function PointLabel(p: Point): string
  {
    if p.exam.Some? then p.term + " - " + p.exam.value else p.term
  }

  // ---------------------------------------------------------------------------------------------
  // Early performance

  datatype Early = Early(
    baselineLabel: Option<string>,
    baselineMean: Option<real>,
    latestLabel: Option<string>,
    latestMean: Option<real>,
    delta: Option<real>,
    trend: string)

  const NO_EARLY: Early := Early(None, None, None, None, None, "insufficient_data")

  function EarlyOf(points: seq<Point>): Early
    requires |points| >= 2
  {
    var first, last := points[0], points[|points| - 1];
    var d := RoundedDelta(first.mean, last.mean);
    Early(Some(PointLabel(first)), first.mean, Some(PointLabel(last)), last.mean, d, DeltaTrend(d, "insufficient_data"))
  }

  /** `early_performance`: the first and last exam points when there are two, else the first and
   *  last school terms when there are two, else nothing to compare. */
  function EarlyPerformance(timeline: seq<Point>, school: seq<Point>): Early
  {
    if |timeline| >= 2 then EarlyOf(timeline)
    else if |school| >= 2 then EarlyOf(school)
    else NO_EARLY
  }

  lemma EarlyPerformanceSpec(timeline: seq<Point>, school: seq<Point>)
    ensures var e := EarlyPerformance(timeline, school);
      && (e.delta.Some? ==> |timeline| >= 2 || |school| >= 2)
      && (e.trend == "insufficient_data" <==> e.delta.None?)
      && (|timeline| >= 2 ==> e.baselineMean == timeline[0].mean && e.latestMean == timeline[|timeline| - 1].mean)
      && (|timeline| < 2 && |school| >= 2 ==> e.baselineMean == school[0].mean && e.latestMean == school[|school| - 1].mean)
      && (|timeline| < 2 && |school| < 2 ==> e == NO_EARLY)
  {
  }

  // ---------------------------------------------------------------------------------------------
  // The whole comparison

  datatype TermComparison =
    | NoTermColumn
    | Comparison(
        terms: seq<string>,
        schoolByTerm: seq<Point>,
        subjectsByTerm: seq<SubjectRow>,
        subjectTermMatrix: seq<(string, seq<(string, Option<real>)>)>,
        studentsByTerm: seq<StudentRow>,
        classByTerm: seq<ClassRow>,
        topImprovers: seq<DeltaEntry>,
        topDecliners: seq<DeltaEntry>,
        improved: nat,
        declined: nat,
        stable: nat,
        examTimeline: seq<Point>,
        early: Early)

  /** `compute_term_comparison`. The term medians are not part of this model. */
  function CompareTerms(df: Frame, passMark: int): TermComparison
  {
    var f0 := Prepared(df);
    match FindCol(f0.columns, TERM_ALIASES)
    case None => NoTermColumn
    case Some(termCol) =>
      var examCol := FindCol(f0.columns, EXAM_ALIASES);
      var studentCol := FindCol(f0.columns, STUDENT_ALIASES);
      var nameCol := FindCol(f0.columns, DISPLAY_NAME_ALIASES);
      var subjectCol := FindCol(f0.columns, SUBJECT_ALIASES);
      var classCol := FindCol(f0.columns, CLASS_ALIASES);
      var rows := Canonicalised(f0.rows, termCol);
      var terms := TermList(rows, termCol);
      var school := SchoolByTerm(rows, termCol, studentCol, terms, passMark);
      var subjects := if subjectCol.Some? then SubjectsByTerm(rows, termCol, subjectCol.value, terms, passMark) else [];
      var students := if studentCol.Some? then StudentsByTerm(rows, termCol, studentCol.value, nameCol, classCol, terms, passMark) else [];
      var classes := if classCol.Some? then ClassByTerm(rows, termCol, classCol.value, terms, passMark) else [];
      var compare := students != [] && |terms| >= 2;
      var entries := if compare then DeltaEntries(students, terms[0], terms[|terms| - 1]) else [];
      var movers := if compare then Movers(entries) else ([], []);
      var timeline := if examCol.Some? then Annotated(Exam, ExamPoints(rows, termCol, examCol.value, studentCol, terms, passMark)) else [];
      Comparison(terms, school, subjects, SubjectTermMatrix(subjects), students, classes, movers.0, movers.1,
        CountWhere(entries, IsImproved), CountWhere(entries, IsDeclined), CountWhere(entries, IsStable),
        timeline, EarlyPerformance(timeline, school))
  }

  /** The terms come out in calendar order, each present label once. */
  lemma TermListSpec(rows: seq<Row>, termCol: string)
    ensures var t := TermList(rows, termCol);
      var present := PresentUnique(rows, termCol);
      && multiset(t) == multiset(seq(|present|, i requires 0 <= i < |present| => CellString(present[i])))
      && forall i, j :: 0 <= i < j < |t| ==> TermKey(t[i]) <= TermKey(t[j])
  {
    var present := PresentUnique(rows, termCol);
    SortTermsSpec(seq(|present|, i requires 0 <= i < |present| => CellString(present[i])), "");
  }

  /** One school row per term, in term order; the first is the baseline and every later one is
   *  compared with the row before it. */
  lemma SchoolByTermSpec(rows: seq<Row>, termCol: string, studentCol: Option<string>, terms: seq<string>, passMark: int)
    ensures var r := SchoolByTerm(rows, termCol, studentCol, terms, passMark);
      && (forall i :: 0 <= i < |r| ==> r[i].term == terms[i])
      && (r != [] ==> r[0].step == BASELINE)
      && (forall i :: 0 < i < |r| ==> r[i].step == SchoolStep(r[i - 1].mean, r[i].mean))
  {
  }

  /** Without a term column there is nothing to compare; with one, the terms are in calendar
   *  order and there is one school row per term. */
  lemma CompareTermsSpec(df: Frame, passMark: int)
    ensures var r := CompareTerms(df, passMark);
      && (r.NoTermColumn? <==> FindCol(Prepared(df).columns, TERM_ALIASES).None?)
      && (r.Comparison? ==>
            && |r.schoolByTerm| == |r.terms|
            && (forall i, j :: 0 <= i < j < |r.terms| ==> TermKey(r.terms[i]) <= TermKey(r.terms[j])))
  {
    var f0 := Prepared(df);
    var termCol := FindCol(f0.columns, TERM_ALIASES);
    if termCol.Some? {
      TermListSpec(Canonicalised(f0.rows, termCol.value), termCol.value);
    }
  }
}
