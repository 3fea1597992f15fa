/** The parent summary of one student: deterministic metrics (strengths, concerns and
 *  recommendations from threshold rules over the student profile), the deterministic summary
 *  text, and the choice between that summary and an AI-written one, which fails closed. */
module AiInsights {
  import opened Wrappers
  import opened Seqs
  import opened Numeric
  import opened Frames
  import Text
  import Grading
  import Stats

  /** Python's `str` of a float, left abstract. */
  type Show = real -> string

  /** `pd.to_numeric(column, errors="coerce")` without its missing values. */
  function CoercedNumbers(rows: seq<Row>, col: string): (r: seq<real>)
    ensures |r| <= |rows|
  {
    if rows == [] then []
    else
      var v := NumberAt(rows[|rows| - 1], col);
      CoercedNumbers(rows[..|rows| - 1], col) + (if v.Some? then [v.value] else [])
  }

  /** The number a row holds in `col`, if any. */
  function NumberAt(row: Row, col: string): Option<real> { ToNumeric(Get(row, col)) }

  /** Every number of the column is kept, nothing else is, and one is kept per row that holds a
   *  number. */
  lemma {:induction false} CoercedNumbersSpec(rows: seq<Row>, col: string)
    ensures var r := CoercedNumbers(rows, col);
      && |r| == CountWhere(rows, row => NumberAt(row, col).Some?)
      && (forall k :: 0 <= k < |rows| && NumberAt(rows[k], col).Some? ==> NumberAt(rows[k], col).value in r)
      && (forall x :: x in r ==> exists k :: 0 <= k < |rows| && NumberAt(rows[k], col) == Some(x))
  {
    if rows != [] {
      var n := |rows| - 1;
      var init := rows[..n];
      CoercedNumbersSpec(init, col);
      var r := CoercedNumbers(rows, col);
      var r0 := CoercedNumbers(init, col);
      assert r == r0 + (if NumberAt(rows[n], col).Some? then [NumberAt(rows[n], col).value] else []);
      forall k | 0 <= k < |rows| && NumberAt(rows[k], col).Some? ensures NumberAt(rows[k], col).value in r {
        if k < n { assert rows[k] == init[k]; }
      }
      forall x | x in r ensures exists k :: 0 <= k < |rows| && NumberAt(rows[k], col) == Some(x) {
        if x in r0 {
          var k :| 0 <= k < n && NumberAt(init[k], col) == Some(x);
          assert rows[k] == init[k];
        } else {
          assert NumberAt(rows[n], col) == Some(x);
        }
      }
    }
  }

  /** The value of a basic info field of the profile (`profile.get(key)`). */
  function InfoGet(info: seq<(string, string)>, key: string): (r: Option<string>)
    ensures r.Some? ==> (key, r.value) in info
    ensures r.None? ==> forall k :: 0 <= k < |info| ==> info[k].0 != key
  {
    if info == [] then None
    else if info[0].0 == key then Some(info[0].1)
    else InfoGet(info[1..], key)
  }

  // ---------------------------------------------------------------------------------------------
  // Notes

  datatype Strength =
    | StrongOverall
    | AboveClass
    | RisingTrend(delta: real)
    | StrongestSubject(subject: string, score: real)

  datatype Concern =
    | BelowPassMark(passMark: int)
    | BelowClass
    | FallingTrend(delta: real)
    | WeakSubject(subject: string, score: real)

  datatype Action =
    | RecoveryPlan
    | ClassFollowUp
    | ReviewDecline
    | ExtraPractice(subject: string)

  function StrengthText(s: Strength, show: Show): string
  {
    match s
    case StrongOverall => "Consistently strong overall performance."
    case AboveClass => "Performs above class average."
    case RisingTrend(d) => "Positive trend across terms (+" + show(d) + " points)."
    case StrongestSubject(n, sc) => "Strongest subject: " + n + " (" + show(sc) + "%)."
  }

  function ConcernText(c: Concern, show: Show): string
  {
    match c
    case BelowPassMark(pm) => "Overall score is below pass mark (" + Text.IntToString(pm) + "%)."
    case BelowClass => "Currently below class average."
    case FallingTrend(d) => "Declining trend across terms (" + show(d) + " points)."
    case WeakSubject(n, sc) => "Needs improvement in " + n + " (" + show(sc) + "%)."
  }

  function ActionText(a: Action): string
  {
    match a
    case RecoveryPlan => "Create a weekly recovery plan with focused revision targets."
    case ClassFollowUp => "Schedule class teacher follow-up and targeted support by subject."
    case ReviewDecline => "Review causes of decline and adjust study routine early."
    case ExtraPractice(n) => "Add extra practice and teacher check-ins for " + n + "."
  }

  // ---------------------------------------------------------------------------------------------
  // The inputs of the rules

  /** The trend points: the profile's term lines whose mean survives `_safe_float`. */
  function TrendPoints(rows: seq<Stats.TermRow>): (r: seq<(string, real)>)
    ensures |r| <= |rows|
  {
    if rows == [] then []
    else
      var m := Stats.SafeFloat(rows[|rows| - 1].mean);
      TrendPoints(rows[..|rows| - 1]) + (if m.Some? then [(rows[|rows| - 1].term, m.value)] else [])
  }

  /** The subject scores that survive `_safe_float`. */
  function Scored(scores: seq<(string, Option<real>)>): (r: seq<(string, real)>)
    ensures |r| <= |scores|
  {
    if scores == [] then []
    else
      var m := Stats.SafeFloat(scores[|scores| - 1].1);
      Scored(scores[..|scores| - 1]) + (if m.Some? then [(scores[|scores| - 1].0, m.value)] else [])
  }

  /** One trend point per term line with a mean, carrying that line's term and rounded mean. */
  lemma {:induction false} TrendPointsSpec(rows: seq<Stats.TermRow>)
    ensures var r := TrendPoints(rows);
      && |r| == CountWhere(rows, (row: Stats.TermRow) => row.mean.Some?)
      && (forall k :: 0 <= k < |rows| && rows[k].mean.Some? ==>
            (rows[k].term, Stats.SafeFloat(rows[k].mean).value) in r)
      && (forall p :: p in r ==> exists k :: 0 <= k < |rows| && rows[k].term == p.0 && Stats.SafeFloat(rows[k].mean) == Some(p.1))
  {
    if rows != [] {
      var n := |rows| - 1;
      var init := rows[..n];
      TrendPointsSpec(init);
      var r := TrendPoints(rows);
      var r0 := TrendPoints(init);
      var m := Stats.SafeFloat(rows[n].mean);
      assert r == r0 + (if m.Some? then [(rows[n].term, m.value)] else []);
      forall k | 0 <= k < |rows| && rows[k].mean.Some? ensures (rows[k].term, Stats.SafeFloat(rows[k].mean).value) in r {
        if k < n { assert rows[k] == init[k]; }
      }
      forall p | p in r ensures exists k :: 0 <= k < |rows| && rows[k].term == p.0 && Stats.SafeFloat(rows[k].mean) == Some(p.1) {
        if p in r0 {
          var k :| 0 <= k < n && init[k].term == p.0 && Stats.SafeFloat(init[k].mean) == Some(p.1);
          assert rows[k] == init[k];
        } else {
          assert rows[n].term == p.0 && m == Some(p.1);
        }
      }
    }
  }

  /** One entry per subject with a score, carrying that subject and its rounded score. */
  lemma {:induction false} ScoredSpec(scores: seq<(string, Option<real>)>)
    ensures var r := Scored(scores);
      && |r| == CountWhere(scores, (e: (string, Option<real>)) => e.1.Some?)
      && (forall k :: 0 <= k < |scores| && scores[k].1.Some? ==>
            (scores[k].0, Stats.SafeFloat(scores[k].1).value) in r)
      && (forall p :: p in r ==> exists k :: 0 <= k < |scores| && scores[k].0 == p.0 && Stats.SafeFloat(scores[k].1) == Some(p.1))
  {
    if scores != [] {
      var n := |scores| - 1;
      var init := scores[..n];
      ScoredSpec(init);
      var r := Scored(scores);
      var r0 := Scored(init);
      var m := Stats.SafeFloat(scores[n].1);
      assert r == r0 + (if m.Some? then [(scores[n].0, m.value)] else []);
      forall k | 0 <= k < |scores| && scores[k].1.Some? ensures (scores[k].0, Stats.SafeFloat(scores[k].1).value) in r {
        if k < n { assert scores[k] == init[k]; }
      }
      forall p | p in r ensures exists k :: 0 <= k < |scores| && scores[k].0 == p.0 && Stats.SafeFloat(scores[k].1) == Some(p.1) {
        if p in r0 {
          var k :| 0 <= k < n && init[k].0 == p.0 && Stats.SafeFloat(init[k].1) == Some(p.1);
          assert scores[k] == init[k];
        } else {
          assert scores[n].0 == p.0 && m == Some(p.1);
        }
      }
    }
  }

  predicate ScoreGe(a: (string, real), b: (string, real)) { a.1 >= b.1 }

  /** The scored subjects, best first; `sorted(reverse=True)` keeps ties in input order. */
  function RankedSubjects(scores: seq<(string, Option<real>)>): (r: seq<(string, real)>)
  {
    SortBy(Scored(scores), ScoreGe)
  }

  /** `round(last - first, 1)`, read only with at least two trend points. */
  function TrendDelta(points: seq<(string, real)>): real
  {
    if |points| >= 2 then Round(points[|points| - 1].1 - points[0].1, 1) else 0.0
  }

  /** The first and the last of the ranked subjects, read only when there is one. */
  function Top(ranked: seq<(string, real)>): (string, real) { if ranked != [] then ranked[0] else ("", 0.0) }

  function Bottom(ranked: seq<(string, real)>): (string, real) { if ranked != [] then ranked[|ranked| - 1] else ("", 0.0) }

  /** What the rules read: the overall and class means, the trend points and the ranked subjects. */
  datatype Evidence = Evidence(overall: Option<real>, classMean: Option<real>, passMark: int,
                               trend: seq<(string, real)>, ranked: seq<(string, real)>)

  /** `[x] if b else []`. */
  function Opt<T>(b: bool, x: T): seq<T> { if b then [x] else [] }

  /** Four rules appending one note each, in order. */
  function Quad<T>(a: bool, w: T, b: bool, x: T, c: bool, y: T, d: bool, z: T): seq<T>
  {
    Opt(a, w) + Opt(b, x) + Opt(c, y) + Opt(d, z)
  }

  predicate HighOverall(e: Evidence) { e.overall.Some? && e.overall.value >= 75.0 }
  predicate BelowPass(e: Evidence) { e.overall.Some? && e.overall.value < e.passMark as real }
  predicate AboveClassMean(e: Evidence)
  {
    e.overall.Some? && e.classMean.Some? && e.overall.value >= e.classMean.value + 5.0
  }
  /** The `elif` of the class rule: 5 or more under the class mean (never also 5 above it). */
  predicate UnderClassMean(e: Evidence)
  {
    e.overall.Some? && e.classMean.Some? && e.overall.value <= e.classMean.value - 5.0
  }
  predicate Rising(e: Evidence) { |e.trend| >= 2 && TrendDelta(e.trend) >= 3.0 }
  /** The `elif` of the trend rule. */
  predicate Falling(e: Evidence) { |e.trend| >= 2 && TrendDelta(e.trend) <= -3.0 }

  /** The strengths, concerns and recommendations in the order the rules add them, before
   *  de-duplication and the cut to three. */
  function RawStrengths(e: Evidence): seq<Strength>
  {
    Quad(HighOverall(e), StrongOverall, AboveClassMean(e), AboveClass,
      Rising(e), RisingTrend(TrendDelta(e.trend)), e.ranked != [], StrongestSubject(Top(e.ranked).0, Top(e.ranked).1))
  }

  function RawConcerns(e: Evidence): seq<Concern>
  {
    Quad(BelowPass(e), BelowPassMark(e.passMark), UnderClassMean(e), BelowClass,
      Falling(e), FallingTrend(TrendDelta(e.trend)), |e.ranked| > 1, WeakSubject(Bottom(e.ranked).0, Bottom(e.ranked).1))
  }

  function RawActions(e: Evidence): seq<Action>
  {
    Quad(BelowPass(e), RecoveryPlan, UnderClassMean(e), ClassFollowUp,
      Falling(e), ReviewDecline, |e.ranked| > 1, ExtraPractice(Bottom(e.ranked).0))
  }

  /** `list(dict.fromkeys(xs))[:3]`. */
  function Keep3<T(==,!new)>(xs: seq<T>): (r: seq<T>)
    ensures |r| <= 3 && NoDups(r)
    ensures forall x :: x in r ==> x in xs
  {
    Take(Distinct(xs), 3)
  }

  // ---------------------------------------------------------------------------------------------
  // The metrics

  datatype Metrics = Metrics(
    studentId: string,
    studentName: string,
    className: Option<string>,
    overallMean: Option<real>,
    studentGrade: string,
    classMean: Option<real>,
    schoolMean: Option<real>,
    passMark: int,
    trendPoints: seq<(string, real)>,
    strengths: seq<Strength>,
    concerns: seq<Concern>,
    recommendations: seq<Action>,
    profile: Stats.Profile,
    studentCount: nat)

  /** The school mean: the coerced mean of the table's percentage column, when it has one. */
  function SchoolMean(df: Frame): Option<real>
  {
    if "percentage" in df.columns then Stats.SafeFloat(Mean(CoercedNumbers(df.rows, "percentage"))) else None
  }

  /** The class mean: the coerced percentage mean of the rows whose class renders as the
   *  student's class. */
  function ClassMean(df: Frame, studentClass: Option<string>): Option<real>
  {
    var classCol := FindCol(df.columns, Stats.CLASS_ALIASES);
    if classCol.Some? && studentClass.Some? && "percentage" in df.columns then
      Stats.SafeFloat(Mean(CoercedNumbers(Stats.RowsRendering(df.rows, classCol.value, studentClass.value), "percentage")))
    else None
  }

  function EvidenceOf(df: Frame, p: Stats.Profile, passMark: int): Evidence
  {
    Evidence(Stats.SafeFloat(p.overallMean), ClassMean(df, InfoGet(p.info, "class")), passMark,
      TrendPoints(p.termTrends.GetOr([])), RankedSubjects(p.subjectScores.GetOr([])))
  }

  /** The metrics of a found profile. */
  function MetricsFrom(df: Frame, p: Stats.Profile, passMark: int): Metrics
  {
    var e := EvidenceOf(df, p, passMark);
    var studentCol := FindCol(df.columns, Stats.STUDENT_ALIASES);
    Metrics(p.studentId, p.name, InfoGet(p.info, "class"), e.overall,
      Grading.GradeLabel(Num(e.overall.GetOr(0.0))), e.classMean, SchoolMean(df), passMark, e.trend,
      Keep3(RawStrengths(e)), Keep3(RawConcerns(e)), Keep3(RawActions(e)), p,
      if studentCol.Some? then Stats.NUnique(df.rows, studentCol.value) else |df.rows|)
  }

  /** `_student_metrics`: None when the student has no profile. */
  function MetricsOf(df: Frame, studentId: string, passMark: int): Option<Metrics>
  {
    match Stats.StudentProfile(df, studentId, passMark)
    case None => None
    case Some(p) => Some(MetricsFrom(df, p, passMark))
  }

  /** The overall-mean rule: a strength at 75 or more, a concern and a recovery plan under the
   *  pass mark. */
  method OverallNotes(e: Evidence, s: seq<Strength>, c: seq<Concern>, a: seq<Action>)
    returns (s': seq<Strength>, c': seq<Concern>, a': seq<Action>)
    ensures s' == s + Opt(HighOverall(e), StrongOverall)
    ensures c' == c + Opt(BelowPass(e), BelowPassMark(e.passMark)) && a' == a + Opt(BelowPass(e), RecoveryPlan)
  {
    s', c', a' := s, c, a;
    if e.overall.Some? {
      if e.overall.value >= 75.0 {
        s' := s' + [StrongOverall];
      }
      if e.overall.value < e.passMark as real {
        c' := c' + [BelowPassMark(e.passMark)];
        a' := a' + [RecoveryPlan];
      }
    }
  }

  /** The class rule: 5 points above or under the class mean. */
  method ClassNotes(e: Evidence, s: seq<Strength>, c: seq<Concern>, a: seq<Action>)
    returns (s': seq<Strength>, c': seq<Concern>, a': seq<Action>)
    ensures s' == s + Opt(AboveClassMean(e), AboveClass)
    ensures c' == c + Opt(UnderClassMean(e), BelowClass) && a' == a + Opt(UnderClassMean(e), ClassFollowUp)
  {
    s', c', a' := s, c, a;
    if e.classMean.Some? && e.overall.Some? {
      if e.overall.value >= e.classMean.value + 5.0 {
        s' := s' + [AboveClass];
      } else if e.overall.value <= e.classMean.value - 5.0 {
        c' := c' + [BelowClass];
        a' := a' + [ClassFollowUp];
      }
    }
  }

  /** The trend rule: a change of 3 points or more between the first and the last term. */
  method TrendNotes(e: Evidence, s: seq<Strength>, c: seq<Concern>, a: seq<Action>)
    returns (s': seq<Strength>, c': seq<Concern>, a': seq<Action>)
    ensures s' == s + Opt(Rising(e), RisingTrend(TrendDelta(e.trend)))
    ensures c' == c + Opt(Falling(e), FallingTrend(TrendDelta(e.trend))) && a' == a + Opt(Falling(e), ReviewDecline)
  {
    s', c', a' := s, c, a;
    if |e.trend| >= 2 {
      var delta := TrendDelta(e.trend);
      if delta >= 3.0 {
        s' := s' + [RisingTrend(delta)];
      } else if delta <= -3.0 {
        c' := c' + [FallingTrend(delta)];
        a' := a' + [ReviewDecline];
      }
    }
  }

  /** The subject rule: the best subject, and the weakest one when there are two or more. */
  method SubjectNotes(e: Evidence, s: seq<Strength>, c: seq<Concern>, a: seq<Action>)
    returns (s': seq<Strength>, c': seq<Concern>, a': seq<Action>)
    ensures s' == s + Opt(e.ranked != [], StrongestSubject(Top(e.ranked).0, Top(e.ranked).1))
    ensures c' == c + Opt(|e.ranked| > 1, WeakSubject(Bottom(e.ranked).0, Bottom(e.ranked).1))
    ensures a' == a + Opt(|e.ranked| > 1, ExtraPractice(Bottom(e.ranked).0))
  {
    s', c', a' := s, c, a;
    var ranked := e.ranked;
    if ranked != [] {
      var top := ranked[0];
      s' := s' + [StrongestSubject(top.0, top.1)];
    }
    if |ranked| > 1 {
      var weak := ranked[|ranked| - 1];
      c' := c' + [WeakSubject(weak.0, weak.1)];
      a' := a' + [ExtraPractice(weak.0)];
    }
  }

  /** The rules of `_student_metrics`, in order, each appending to the three lists. */
  method Notes(e: Evidence) returns (strengths: seq<Strength>, concerns: seq<Concern>, actions: seq<Action>)
    ensures strengths == RawStrengths(e) && concerns == RawConcerns(e) && actions == RawActions(e)
  {
    strengths, concerns, actions := OverallNotes(e, [], [], []);
    assert strengths == Opt(HighOverall(e), StrongOverall);
    assert concerns == Opt(BelowPass(e), BelowPassMark(e.passMark)) && actions == Opt(BelowPass(e), RecoveryPlan);
    strengths, concerns, actions := ClassNotes(e, strengths, concerns, actions);
    strengths, concerns, actions := TrendNotes(e, strengths, concerns, actions);
    strengths, concerns, actions := SubjectNotes(e, strengths, concerns, actions);
  }

  /** `_student_metrics`, with the de-duplication and the cut to three. */
  method StudentMetrics(df: Frame, studentId: string, passMark: int) returns (m: Option<Metrics>)
    ensures m == MetricsOf(df, studentId, passMark)
  {
    var profile := Stats.StudentProfile(df, studentId, passMark);
    if profile.None? {
      return None;
    }
    var p := profile.value;
    var e := EvidenceOf(df, p, passMark);
    var strengths, concerns, actions := Notes(e);
    var studentCol := FindCol(df.columns, Stats.STUDENT_ALIASES);
    m := Some(Metrics(p.studentId, p.name, InfoGet(p.info, "class"), e.overall,
      Grading.GradeLabel(Num(e.overall.GetOr(0.0))), e.classMean, SchoolMean(df), passMark, e.trend,
      Keep3(strengths), Keep3(concerns), Keep3(actions), p,
      if studentCol.Some? then Stats.NUnique(df.rows, studentCol.value) else |df.rows|));
  }

  /** A student without a profile has no metrics; the metrics carry the requested id. */
  lemma MetricsFound(df: Frame, studentId: string, passMark: int)
    ensures MetricsOf(df, studentId, passMark).Some? <==> Stats.StudentProfile(df, studentId, passMark).Some?
    ensures MetricsOf(df, studentId, passMark).Some? ==>
      MetricsOf(df, studentId, passMark).value.studentId == studentId
      && MetricsOf(df, studentId, passMark).value.passMark == passMark
  {
  }

  // ---------------------------------------------------------------------------------------------
  // What the rules promise

  function Ones(a: bool, b: bool, c: bool, d: bool): nat
  {
    (if a then 1 else 0) + (if b then 1 else 0) + (if c then 1 else 0) + (if d then 1 else 0)
  }

  lemma QuadNoDups<T>(a: bool, w: T, b: bool, x: T, c: bool, y: T, d: bool, z: T)
    requires w != x && w != y && w != z && x != y && x != z && y != z
    ensures var q := Quad(a, w, b, x, c, y, d, z);
      NoDups(q) && |q| == Ones(a, b, c, d)
      && (forall v :: v in q <==> (v == w && a) || (v == x && b) || (v == y && c) || (v == z && d))
  {
  }

  /** Four rules with notes of different kinds: nothing is removed by the de-duplication, and
   *  the cut to three drops the fourth note exactly when all four rules fire. */
  lemma {:induction false} QuadSpec<T(!new)>(a: bool, w: T, b: bool, x: T, c: bool, y: T, d: bool, z: T)
    requires w != x && w != y && w != z && x != y && x != z && y != z
    ensures var q := Quad(a, w, b, x, c, y, d, z);
      && NoDups(q)
      && Keep3(q) == Take(q, 3)
      && (w in Keep3(q) <==> a) && (x in Keep3(q) <==> b) && (y in Keep3(q) <==> c)
      && (z in Keep3(q) <==> d && !(a && b && c))
      && |Keep3(q)| == if Ones(a, b, c, d) < 3 then Ones(a, b, c, d) else 3
  {
    var q := Quad(a, w, b, x, c, y, d, z);
    QuadNoDups(a, w, b, x, c, y, d, z);
    DistinctOfNoDups(q);
    if a && b && c && d {
      assert q == [w, x, y, z];
      assert Take(q, 3) == [w, x, y];
    } else {
      assert Take(q, 3) == q;
    }
  }

  /** The strengths: a strong overall mean (75 or more), a mean at least 5 above the class
   *  mean, a term trend of +3 or more, and the best subject; the first three of those that hold. */
  lemma StrengthsSpec(e: Evidence)
    ensures var s := Keep3(RawStrengths(e));
      && (StrongOverall in s <==> HighOverall(e))
      && (AboveClass in s <==> AboveClassMean(e))
      && (RisingTrend(TrendDelta(e.trend)) in s <==> Rising(e))
      && (StrongestSubject(Top(e.ranked).0, Top(e.ranked).1) in s <==>
            e.ranked != [] && !(HighOverall(e) && AboveClassMean(e) && Rising(e)))
  {
    QuadSpec(HighOverall(e), StrongOverall, AboveClassMean(e), AboveClass,
      Rising(e), RisingTrend(TrendDelta(e.trend)), e.ranked != [], StrongestSubject(Top(e.ranked).0, Top(e.ranked).1));
  }

  /** A trend strength carries the rise between the first and last term, and a subject
   *  strength the best-ranked subject and its score. */
  lemma StrengthValues(e: Evidence)
    ensures var s := Keep3(RawStrengths(e));
      && (forall d :: RisingTrend(d) in s ==> d == TrendDelta(e.trend) >= 3.0)
      && (forall n, sc :: StrongestSubject(n, sc) in s ==> e.ranked != [] && (n, sc) == e.ranked[0])
  {
    QuadNoDups(HighOverall(e), StrongOverall, AboveClassMean(e), AboveClass,
      Rising(e), RisingTrend(TrendDelta(e.trend)), e.ranked != [], StrongestSubject(Top(e.ranked).0, Top(e.ranked).1));
    var s := Keep3(RawStrengths(e));
    forall d | RisingTrend(d) in s
      ensures d == TrendDelta(e.trend) >= 3.0
    {
      assert RisingTrend(d) in RawStrengths(e);
    }
    forall n, sc | StrongestSubject(n, sc) in s
      ensures e.ranked != [] && (n, sc) == e.ranked[0]
    {
      assert StrongestSubject(n, sc) in RawStrengths(e);
    }
  }

  /** The concerns: a mean under the pass mark, a mean at least 5 under the class mean, a term
   *  trend of -3 or less, and the weakest of two or more scored subjects; the first three of
   *  those that hold. */
  lemma ConcernsSpec(e: Evidence)
    ensures var s := Keep3(RawConcerns(e));
      && (BelowPassMark(e.passMark) in s <==> BelowPass(e))
      && (BelowClass in s <==> UnderClassMean(e))
      && (FallingTrend(TrendDelta(e.trend)) in s <==> Falling(e))
      && (WeakSubject(Bottom(e.ranked).0, Bottom(e.ranked).1) in s <==>
            |e.ranked| > 1 && !(BelowPass(e) && UnderClassMean(e) && Falling(e)))
  {
    QuadSpec(BelowPass(e), BelowPassMark(e.passMark), UnderClassMean(e), BelowClass,
      Falling(e), FallingTrend(TrendDelta(e.trend)), |e.ranked| > 1, WeakSubject(Bottom(e.ranked).0, Bottom(e.ranked).1));
  }

  /** A trend concern carries the fall between the first and last term, and a subject concern
   *  the lowest-ranked subject and its score. */
  lemma ConcernValues(e: Evidence)
    ensures var s := Keep3(RawConcerns(e));
      && (forall d :: FallingTrend(d) in s ==> d == TrendDelta(e.trend) <= -3.0)
      && (forall n, sc :: WeakSubject(n, sc) in s ==> |e.ranked| > 1 && (n, sc) == e.ranked[|e.ranked| - 1])
  {
    QuadNoDups(BelowPass(e), BelowPassMark(e.passMark), UnderClassMean(e), BelowClass,
      Falling(e), FallingTrend(TrendDelta(e.trend)), |e.ranked| > 1, WeakSubject(Bottom(e.ranked).0, Bottom(e.ranked).1));
    var s := Keep3(RawConcerns(e));
    forall d | FallingTrend(d) in s
      ensures d == TrendDelta(e.trend) <= -3.0
    {
      assert FallingTrend(d) in RawConcerns(e);
    }
    forall n, sc | WeakSubject(n, sc) in s
      ensures |e.ranked| > 1 && (n, sc) == e.ranked[|e.ranked| - 1]
    {
      assert WeakSubject(n, sc) in RawConcerns(e);
    }
  }

  /** Each concern comes with its recommendation: the two lists are as long, and a
   *  recommendation is given exactly when its concern is raised. */
  lemma ActionsFollowConcerns(e: Evidence)
    ensures var c := Keep3(RawConcerns(e));
      var a := Keep3(RawActions(e));
      && |a| == |c|
      && (RecoveryPlan in a <==> BelowPassMark(e.passMark) in c)
      && (ClassFollowUp in a <==> BelowClass in c)
      && (ReviewDecline in a <==> FallingTrend(TrendDelta(e.trend)) in c)
      && (ExtraPractice(Bottom(e.ranked).0) in a <==> WeakSubject(Bottom(e.ranked).0, Bottom(e.ranked).1) in c)
  {
    QuadSpec(BelowPass(e), BelowPassMark(e.passMark), UnderClassMean(e), BelowClass,
      Falling(e), FallingTrend(TrendDelta(e.trend)), |e.ranked| > 1, WeakSubject(Bottom(e.ranked).0, Bottom(e.ranked).1));
    QuadSpec(BelowPass(e), RecoveryPlan, UnderClassMean(e), ClassFollowUp,
      Falling(e), ReviewDecline, |e.ranked| > 1, ExtraPractice(Bottom(e.ranked).0));
  }

  /** The strongest subject has the best score and the weakest the lowest. */
  lemma RankedBounds(scores: seq<(string, Option<real>)>)
    ensures var r := RankedSubjects(scores);
      && multiset(r) == multiset(Scored(scores))
      && (forall k :: 0 <= k < |r| ==> Top(r).1 >= r[k].1 >= Bottom(r).1)
  {
    var s := Scored(scores);
    assert TotalPreorder(ScoreGe);
    SortByPerm(s, ScoreGe);
    SortBySorted(s, ScoreGe);
    var r := RankedSubjects(scores);
    forall k | 0 <= k < |r| ensures Top(r).1 >= r[k].1 >= Bottom(r).1 {
      if 0 < k { assert ScoreGe(r[0], r[k]); }
      if k < |r| - 1 { assert ScoreGe(r[k], r[|r| - 1]); }
    }
  }

  // ---------------------------------------------------------------------------------------------
  // The deterministic summary

  /** `metrics.get("class") or "N/A"`. */
  function ClassOrNA(c: Option<string>): string
  {
    if c.Some? && c.value != "" then c.value else "N/A"
  }

  function Opening(m: Metrics, show: Show): string
  {
    m.studentName + " is in " + ClassOrNA(m.className) + " with an overall score of "
    + (if m.overallMean.Some? then show(m.overallMean.value) else "N/A") + "% (Grade " + m.studentGrade + ")."
  }

  function PassSentence(passMark: int): string
  {
    "Pass mark is " + Text.IntToString(passMark) + "%."
  }

  /** The sentences of the summary: the opening, the class and school averages where known, and
   *  the pass mark. */
  function SummaryParts(m: Metrics, show: Show): seq<string>
  {
    [Opening(m, show)]
    + (if m.classMean.Some? then ["Class average is " + show(m.classMean.value) + "%."] else [])
    + (if m.schoolMean.Some? then ["School average is " + show(m.schoolMean.value) + "%."] else [])
    + [PassSentence(m.passMark)]
  }

  method BuildSummaryParts(m: Metrics, show: Show) returns (parts: seq<string>)
    ensures parts == SummaryParts(m, show)
  {
    parts := [Opening(m, show)];
    if m.classMean.Some? {
      parts := parts + ["Class average is " + show(m.classMean.value) + "%."];
    }
    if m.schoolMean.Some? {
      parts := parts + ["School average is " + show(m.schoolMean.value) + "%."];
    }
    parts := parts + [PassSentence(m.passMark)];
  }

  /** The summary has a sentence per known average and always closes with the pass mark. */
  lemma SummaryPartsSpec(m: Metrics, show: Show)
    ensures var p := SummaryParts(m, show);
      && |p| == 2 + (if m.classMean.Some? then 1 else 0) + (if m.schoolMean.Some? then 1 else 0)
      && p[0] == Opening(m, show)
      && p[|p| - 1] == PassSentence(m.passMark)
      && (m.classMean.Some? ==> p[1] == "Class average is " + show(m.classMean.value) + "%.")
  {
  }

  lemma {:induction false} JoinEndsWithLast(sep: string, parts: seq<string>)
    requires parts != []
    ensures Text.EndsWith(Text.Join(sep, parts), parts[|parts| - 1])
  {
    if |parts| > 1 {
      JoinEndsWithLast(sep, parts[1..]);
      var t := Text.Join(sep, parts[1..]);
      var l := parts[|parts| - 1];
      assert parts[1..][|parts[1..]| - 1] == l;
      assert (parts[0] + sep + t)[|parts[0] + sep + t| - |l|..] == t[|t| - |l|..];
    }
  }

  /** The summary text ends with the pass-mark sentence, so it is never empty. */
  lemma SummaryCloses(m: Metrics, show: Show)
    ensures Text.EndsWith(Text.Join(" ", SummaryParts(m, show)), PassSentence(m.passMark))
    ensures Text.Join(" ", SummaryParts(m, show)) != ""
  {
    JoinEndsWithLast(" ", SummaryParts(m, show));
    assert |PassSentence(m.passMark)| >= |"Pass mark is "|;
  }

  // ---------------------------------------------------------------------------------------------
  // The parent summary

  datatype Mode = Deterministic | DeterministicFallback | AiOpenAi

  /** The metrics block of a summary. */
  datatype Brief = Brief(studentId: string, studentName: string, className: Option<string>,
                         overallMean: Option<real>, studentGrade: string, classMean: Option<real>,
                         schoolMean: Option<real>, passMark: int)

  datatype ParentResult =
    | StudentNotFound(studentId: string)
    | ParentSummary(mode: Mode, summary: string, strengths: seq<string>, concerns: seq<string>,
                    recommendations: seq<string>, brief: Brief, aiError: Option<string>)

  /** What the AI call gives: its parsed reply, or the exception it raised (no key, an HTTP or
   *  JSON error, an empty reply). */
  datatype AiOutcome = AiReply(summary: string, strengths: seq<string>, concerns: seq<string>, recommendations: seq<string>)
                     | AiFailure(error: string)

  /** The environment the entry point reads. */
  datatype Env = Env(aiEnabled: Option<string>, aiProvider: Option<string>, apiKey: Option<string>,
                     aiTimeout: Option<string>, aiTemperature: Option<string>)

  /** `AI_TIMEOUT_SECONDS` and `AI_TEMPERATURE` with their defaults. */
  function TimeoutText(env: Env): string { env.aiTimeout.GetOr("20") }

  function TemperatureText(env: Env): string { env.aiTemperature.GetOr("0.2") }

  /** The message of the `ValueError` that `float(text)` raises. */
  function FloatError(text: string): string
  {
    "could not convert string to float: '" + text + "'"
  }

  /** The error of the first setting `float()` refuses, the timeout read first. */
  function SettingsError(env: Env): (r: Option<string>)
    ensures r.None? <==> ParseDecimal(TimeoutText(env)).Some? && ParseDecimal(TemperatureText(env)).Some?
    ensures ParseDecimal(TimeoutText(env)).None? ==> r == Some(FloatError(TimeoutText(env)))
    ensures ParseDecimal(TimeoutText(env)).Some? && ParseDecimal(TemperatureText(env)).None? ==>
              r == Some(FloatError(TemperatureText(env)))
  {
    if ParseDecimal(TimeoutText(env)).None? then Some(FloatError(TimeoutText(env)))
    else if ParseDecimal(TemperatureText(env)).None? then Some(FloatError(TemperatureText(env)))
    else None
  }

  /** The default settings are numbers, so with neither variable set no setting fails. */
  lemma DefaultSettingsParse(env: Env)
    requires env.aiTimeout.None? && env.aiTemperature.None?
    ensures SettingsError(env).None?
  {
    ParseDigits("20");
    ParsePointDigits("0", "2");
    assert "0" + "." + "2" == "0.2";
  }

  /** `_call_openai_parent_summary` before the request: both numeric settings are converted
   *  first, and a setting that is not a number raises its `ValueError`; then a missing API key
   *  raises; otherwise `reply` is what the request and the parsing of its JSON give. */
  function CallOpenAi(env: Env, reply: AiOutcome): (r: AiOutcome)
    ensures SettingsError(env).Some? ==> r == AiFailure(SettingsError(env).value)
    ensures SettingsError(env).None? && Text.Trim(env.apiKey.GetOr("")) == "" ==>
              r == AiFailure("OPENAI_API_KEY is not set.")
    ensures SettingsError(env).None? && Text.Trim(env.apiKey.GetOr("")) != "" ==> r == reply
  {
    match SettingsError(env)
    case Some(e) => AiFailure(e)
    case None => if Text.Trim(env.apiKey.GetOr("")) == "" then AiFailure("OPENAI_API_KEY is not set.") else reply
  }

  function StrengthTexts(s: seq<Strength>, show: Show): (r: seq<string>)
    ensures |r| == |s|
  {
    seq(|s|, k requires 0 <= k < |s| => StrengthText(s[k], show))
  }

  function ConcernTexts(s: seq<Concern>, show: Show): (r: seq<string>)
    ensures |r| == |s|
  {
    seq(|s|, k requires 0 <= k < |s| => ConcernText(s[k], show))
  }

  function ActionTexts(s: seq<Action>): (r: seq<string>)
    ensures |r| == |s|
  {
    seq(|s|, k requires 0 <= k < |s| => ActionText(s[k]))
  }

  /** `_deterministic_parent_summary`. */
  function DeterministicSummary(m: Metrics, show: Show): (r: ParentResult)
  {
    ParentSummary(Deterministic, Text.Join(" ", SummaryParts(m, show)), StrengthTexts(m.strengths, show),
      ConcernTexts(m.concerns, show), ActionTexts(m.recommendations),
      Brief(m.studentId, m.studentName, Some(ClassOrNA(m.className)), m.overallMean, m.studentGrade,
        m.classMean, m.schoolMean, m.passMark), None)
  }

  /** The AI reply with the deterministic metrics attached; each list is cut to three. */
  function AiSummary(m: Metrics, reply: AiOutcome): ParentResult
    requires reply.AiReply?
  {
    ParentSummary(AiOpenAi, reply.summary, Take(reply.strengths, 3), Take(reply.concerns, 3),
      Take(reply.recommendations, 3),
      Brief(m.studentId, m.studentName, m.className, m.overallMean, m.studentGrade, m.classMean,
        m.schoolMean, m.passMark), None)
  }

  /** `AI_ENABLED`, trimmed and lower-cased, is one of 1, true, yes, on (default false). */
  predicate AiEnabled(env: Env)
  {
    Text.Lower(Text.Trim(env.aiEnabled.GetOr("false"))) in {"1", "true", "yes", "on"}
  }

  /** `AI_PROVIDER`, trimmed and lower-cased, is openai (the default). */
  predicate UsesOpenAi(env: Env)
  {
    Text.Lower(Text.Trim(env.aiProvider.GetOr("openai"))) == "openai"
  }

  /** The branch of `generate_parent_summary` after the metrics are found; `reply` is what the
   *  request to the AI provider would give. */
  function Respond(m: Metrics, env: Env, reply: AiOutcome, show: Show): ParentResult
  {
    if !AiEnabled(env) || !UsesOpenAi(env) then DeterministicSummary(m, show)
    else match CallOpenAi(env, reply)
      case AiReply(_, _, _, _) => AiSummary(m, CallOpenAi(env, reply))
      case AiFailure(err) => DeterministicSummary(m, show).(mode := DeterministicFallback, aiError := Some(err))
  }

  /** `generate_parent_summary`. */
  function ParentSummaryOf(df: Frame, studentId: string, passMark: int, env: Env, reply: AiOutcome, show: Show): ParentResult
  {
    match MetricsOf(df, studentId, passMark)
    case None => StudentNotFound(studentId)
    case Some(m) => Respond(m, env, reply, show)
  }

  /** Without a profile the result is the not-found error carrying the requested id; with one it
   *  is a summary of that student's metrics. */
  lemma NotFoundSpec(df: Frame, studentId: string, passMark: int, env: Env, reply: AiOutcome, show: Show)
    ensures var r := ParentSummaryOf(df, studentId, passMark, env, reply, show);
      && (r.StudentNotFound? <==> Stats.StudentProfile(df, studentId, passMark).None?)
      && (r.StudentNotFound? ==> r.studentId == studentId)
      && (r.ParentSummary? ==> r.brief.studentId == studentId && r.brief.passMark == passMark)
  {
    MetricsFound(df, studentId, passMark);
    if MetricsOf(df, studentId, passMark).Some? {
      RespondCarriesMetrics(MetricsOf(df, studentId, passMark).value, env, reply, show);
    }
  }

  /** Every response of a found student is a summary carrying that student's id and pass mark. */
  lemma RespondCarriesMetrics(m: Metrics, env: Env, reply: AiOutcome, show: Show)
    ensures var r := Respond(m, env, reply, show);
      r.ParentSummary? && r.brief.studentId == m.studentId && r.brief.passMark == m.passMark
  {
  }

  /** Unless AI is enabled with the openai provider, the summary is deterministic whatever the AI
   *  call would give. */
  lemma DisabledIsDeterministic(m: Metrics, env: Env, reply1: AiOutcome, reply2: AiOutcome, show: Show)
    requires !AiEnabled(env) || !UsesOpenAi(env)
    ensures var r := Respond(m, env, reply1, show);
      && r == Respond(m, env, reply2, show)
      && r.ParentSummary? && r.mode == Deterministic && r.aiError == None
  {
  }

  /** With AI on: a failing call (a setting that is not a number, a missing key, or a failed
   *  request) falls back to the deterministic summary, marked as a fallback and carrying the
   *  error; a reply is used with each list cut to three and the deterministic metrics attached. */
  lemma AiOutcomeSpec(m: Metrics, env: Env, reply: AiOutcome, show: Show)
    requires AiEnabled(env) && UsesOpenAi(env)
    ensures var r := Respond(m, env, reply, show);
      var d := DeterministicSummary(m, show);
      var keyed := Text.Trim(env.apiKey.GetOr("")) != "";
      && r.ParentSummary?
      && (SettingsError(env).Some? ==>
            r == d.(mode := DeterministicFallback, aiError := SettingsError(env)))
      && (SettingsError(env).None? && !keyed ==>
            r == d.(mode := DeterministicFallback, aiError := Some("OPENAI_API_KEY is not set.")))
      && (SettingsError(env).None? && keyed && reply.AiFailure? ==>
            r == d.(mode := DeterministicFallback, aiError := Some(reply.error)))
      && (SettingsError(env).None? && keyed && reply.AiReply? ==>
            && r.mode == AiOpenAi && r.summary == reply.summary && r.aiError == None
            && r.strengths == Take(reply.strengths, 3) && |r.strengths| <= 3
            && r.concerns == Take(reply.concerns, 3) && |r.concerns| <= 3
            && r.recommendations == Take(reply.recommendations, 3) && |r.recommendations| <= 3
            && r.brief.studentId == m.studentId && r.brief.passMark == m.passMark)
  {
  }

  /** A deterministic summary is never empty and lists at most three of each kind of note. */
  lemma DeterministicSpec(m: Metrics, show: Show)
    requires |m.strengths| <= 3 && |m.concerns| <= 3 && |m.recommendations| <= 3
    ensures var r := DeterministicSummary(m, show);
      && r.summary != "" && Text.EndsWith(r.summary, PassSentence(m.passMark))
      && |r.strengths| <= 3 && |r.concerns| <= 3 && |r.recommendations| <= 3
      && r.brief.className.Some? && r.brief.className.value != ""
  {
    SummaryCloses(m, show);
    assert |"N/A"| == 3;
  }
}
