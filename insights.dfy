/** The rule-based insight engine: threshold rules over the overview, the subject statistics,
 *  the risk report and the gap analysis, each producing an insight with a category, a severity,
 *  a title, a narrative and a recommendation; the insights are ordered by severity and counted. */
module Insights {
  import opened Wrappers
  import opened Seqs
  import opened Numeric
  import opened Frames
  import Text
  import Grading
  import Stats
  import Risk
  import Gaps
  import opened Narrative
  import Terms

  /** `_safe_float`: a missing value reads as 0, a present one is rounded to two decimals. */
  function SafeFloat(v: Option<real>): real
  {
    if v.Some? then Round(v.value, 2) else 0.0
  }

  // ---------------------------------------------------------------------------------------------
  // Insights

  /** The recommendation of each rule. */
  datatype Advice =
    | SchoolReview
    | MaintainStrategies
    | RevisionSessions
    | TargetedSupport(subject: string)
    | CurriculumReview(subject: string)
    | GenderStrategies
    | ClassAllocation
    | RegionalResources
    | TermPacing
    | InterventionPlans
    | ClassReview(className: string)
    | RecogniseStudent
    | AcknowledgeProgress
    | ShareStrategies(subject: string)
    | ContinueStrategies
    | CrossCurricular(subjectA: string, subjectB: string)

  /** The opening word of each recommendation. */
  function AdviceLead(a: Advice): string
  {
    match a
    case SchoolReview => "Conduct"
    case MaintainStrategies => "Maintain"
    case RevisionSessions => "Introduce"
    case TargetedSupport(_) => "Arrange"
    case CurriculumReview(_) => "Review"
    case GenderStrategies => "Investigate"
    case ClassAllocation => "Review"
    case RegionalResources => "Allocate"
    case TermPacing => "Align"
    case InterventionPlans => "Create"
    case ClassReview(_) => "Conduct"
    case RecogniseStudent => "Recognise"
    case AcknowledgeProgress => "Acknowledge"
    case ShareStrategies(_) => "Document"
    case ContinueStrategies => "Continue"
    case CrossCurricular(_, _) => "Explore"
  }

  /** The rest of each recommendation, after its opening word. */
  function AdviceRest(a: Advice): string
  {
    match a
    case SchoolReview =>
      " a school-wide academic review. Focus remedial resources on the weakest subjects and lowest-performing classes. Consider teacher training and curriculum adjustments."
    case MaintainStrategies =>
      " current strategies and focus on raising lower-performing subjects and students closer to the top."
    case RevisionSessions =>
      " after-school revision sessions and peer tutoring. Review assessment difficulty and grading standards."
    case TargetedSupport(s) =>
      " targeted support for " + s + ": teacher coaching, extra tutorials, and updated learning materials."
    case CurriculumReview(s) =>
      " " + s + " curriculum delivery. Consider remedial classes and diagnostic assessments."
    case GenderStrategies =>
      " root causes of the gender disparity. Consider gender-responsive teaching strategies, mentoring programmes, and equitable classroom engagement."
    case ClassAllocation =>
      " class allocations, teacher assignments, and resource distribution. Consider sharing best practices from the top class with others."
    case RegionalResources =>
      " additional resources to underperforming regions. Facilitate inter-school knowledge sharing."
    case TermPacing =>
      " curriculum pacing across terms. Investigate whether external factors contribute to term dips."
    case InterventionPlans =>
      " individual intervention plans for all high-risk students. Involve parents, counsellors, and class teachers."
    case ClassReview(c) =>
      " a class-level review for " + c + ". Investigate shared barriers and consider class-wide support."
    case RecogniseStudent =>
      " this student publicly. Consider peer mentoring roles and academic enrichment opportunities."
    case AcknowledgeProgress =>
      " this student's progress. Identify the factors behind their improvement."
    case ShareStrategies(s) =>
      " and share " + s + " teaching strategies with other departments."
    case ContinueStrategies =>
      " the strategies that contributed to this positive trajectory."
    case CrossCurricular(x, y) =>
      " cross-curricular links between " + x + " and " + y + ". If one is strong and the other weak, leverage the stronger for scaffolding."
  }

  /** The recommendation text of an insight. */
  function AdviceText(a: Advice): string
  {
    AdviceLead(a) + AdviceRest(a)
  }

  /** Every rule gives a recommendation. */
  lemma AdviceNonEmpty(a: Advice)
    ensures AdviceText(a) != ""
  {
    assert |AdviceLead(a)| > 0;
  }

  /** One insight; its narrative is the template `story` renders. */
  datatype Insight = Insight(id: string, category: Category, severity: Severity, title: string,
                             story: Narration, advice: Advice)

  /** The insights a rule produces over a list, in list order: `for x in xs: if ...: append`. */
  function Collect<T>(xs: seq<T>, rule: T -> Option<Insight>): (r: seq<Insight>)
    ensures |r| <= |xs|
  {
    if xs == [] then []
    else Collect(xs[..|xs| - 1], rule) + (var o := rule(xs[|xs| - 1]); if o.Some? then [o.value] else [])
  }

  /** An insight is collected exactly when the rule produces it for some element. */
  lemma {:induction false} CollectMembers<T>(xs: seq<T>, rule: T -> Option<Insight>, i: Insight)
    ensures i in Collect(xs, rule) <==> exists k :: 0 <= k < |xs| && rule(xs[k]) == Some(i)
  {
    if xs != [] {
      var p := xs[..|xs| - 1];
      CollectMembers(p, rule, i);
      if exists k :: 0 <= k < |xs| && rule(xs[k]) == Some(i) {
        var k :| 0 <= k < |xs| && rule(xs[k]) == Some(i);
        if k < |p| {
          assert p[k] == xs[k];
        }
      }
      if exists k :: 0 <= k < |p| && rule(p[k]) == Some(i) {
        var k :| 0 <= k < |p| && rule(p[k]) == Some(i);
        assert xs[k] == p[k];
      }
    }
  }

  /** Every collected insight has a property the rule guarantees of everything it produces. */
  lemma CollectAll<T>(xs: seq<T>, rule: T -> Option<Insight>, good: Insight -> bool)
    requires forall k :: 0 <= k < |xs| && rule(xs[k]).Some? ==> good(rule(xs[k]).value)
    ensures forall i :: i in Collect(xs, rule) ==> good(i)
  {
    forall i | i in Collect(xs, rule)
      ensures good(i)
    {
      CollectMembers(xs, rule, i);
    }
  }

  method CollectLoop<T>(xs: seq<T>, rule: T -> Option<Insight>) returns (r: seq<Insight>)
    ensures r == Collect(xs, rule)
  {
    r := [];
    var k := 0;
    while k < |xs|
      invariant 0 <= k <= |xs|
      invariant r == Collect(xs[..k], rule)
    {
      assert xs[..k + 1][..k] == xs[..k];
      var o := rule(xs[k]);
      if o.Some? {
        r := r + [o.value];
      }
      k := k + 1;
    }
    assert xs[..|xs|] == xs;
  }

  // ---------------------------------------------------------------------------------------------
  // Performance

  /** Rule 1: the overall mean against the pass mark; it always produces an insight. */
  function OverallInsight(mean: real, passMark: int): (r: Insight)
    ensures r.category == Performance
    ensures r.story.LowOverallMean? <==> mean < passMark as real
    ensures r.story.HighOverallMean? <==> mean >= passMark as real
    ensures r.severity == Critical <==> mean < passMark as real - 15.0
    ensures r.severity == Warning <==> passMark as real - 15.0 <= mean < passMark as real
    ensures r.severity == Info <==> mean >= passMark as real
  {
    if mean < passMark as real then
      Insight("perf_low_overall_mean", Performance,
        if mean < (passMark - 15) as real then Critical else Warning,
        "Below-Average School Performance", LowOverallMean(mean, passMark), SchoolReview)
    else
      Insight("perf_good_overall_mean", Performance, Info, "School Performance Above Pass Mark",
        HighOverallMean(mean, passMark), MaintainStrategies)
  }

  /** Rule 2: a failure rate over 40%, critical over 60%. */
  function FailRateInsight(ov: Stats.Overview): (r: seq<Insight>)
    ensures |r| <= 1
    ensures r != [] <==> Round(ov.failRate, 2) > 40.0
    ensures r != [] ==> r[0].category == Performance && r[0].story.HighFailRate?
    ensures r != [] ==> (r[0].severity == Critical <==> Round(ov.failRate, 2) > 60.0)
    ensures r != [] ==> r[0].severity != Info
  {
    var rate := Round(ov.failRate, 2);
    if rate > 40.0 then
      [Insight("perf_high_fail_rate", Performance, if rate > 60.0 then Critical else Warning,
        "High Overall Failure Rate", HighFailRate(rate, ov.failCount, ov.totalRecords), RevisionSessions)]
    else []
  }

  /** Rule 3: the last subject of the descending ranking, more than 10 points under a positive
   *  school mean. */
  function WeakestInsight(subjects: seq<Stats.SubjectStat>, mean: real): (r: seq<Insight>)
    ensures |r| <= 1
    ensures r != [] <==> subjects != [] && mean > 0.0 && mean - SafeFloat(subjects[|subjects| - 1].mean) > 10.0
    ensures r != [] ==> r[0].severity == Warning && r[0].category == Performance
    ensures r != [] ==> r[0].story == WeakestSubject(subjects[|subjects| - 1].subject, SafeFloat(subjects[|subjects| - 1].mean), mean)
  {
    if subjects != [] && mean > 0.0 then
      var weakest := subjects[|subjects| - 1];
      var wm := SafeFloat(weakest.mean);
      if mean - wm > 10.0 then
        [Insight("perf_weakest_subject", Performance, Warning, "Weak Subject: " + weakest.subject,
          WeakestSubject(weakest.subject, wm, mean), TargetedSupport(weakest.subject))]
      else []
    else []
  }

  /** Rule 4: a subject failure rate over 50%, critical over 70%. */
  function SubjectFailRule(s: Stats.SubjectStat): (r: Option<Insight>)
    ensures r.Some? <==> Round(s.failRate, 2) > 50.0
    ensures r.Some? ==> r.value.category == Performance
    ensures r.Some? ==> r.value.story == SubjectHighFailRate(s.subject, Round(s.failRate, 2))
    ensures r.Some? ==> (r.value.severity == Critical <==> Round(s.failRate, 2) > 70.0) && r.value.severity != Info
  {
    var rate := Round(s.failRate, 2);
    if rate > 50.0 then
      Some(Insight("perf_subject_high_fail_" + Text.Slug(s.subject), Performance,
        if rate > 70.0 then Critical else Warning, "High Failure Rate in " + s.subject,
        SubjectHighFailRate(s.subject, rate), CurriculumReview(s.subject)))
    else None
  }

  /** `_performance_insights`. */
  function PerformanceInsights(ov: Stats.Overview, ss: Stats.SubjectStats, passMark: int): seq<Insight>
  {
    var mean := SafeFloat(ov.overallMean);
    [OverallInsight(mean, passMark)] + FailRateInsight(ov) + WeakestInsight(ss.subjects, mean)
    + Collect(ss.subjects, SubjectFailRule)
  }

  method ComputePerformanceInsights(ov: Stats.Overview, ss: Stats.SubjectStats, passMark: int) returns (r: seq<Insight>)
    ensures r == PerformanceInsights(ov, ss, passMark)
  {
    var mean := SafeFloat(ov.overallMean);
    r := [OverallInsight(mean, passMark)];
    r := r + FailRateInsight(ov);
    r := r + WeakestInsight(ss.subjects, mean);
    var perSubject := CollectLoop(ss.subjects, SubjectFailRule);
    r := r + perSubject;
  }

  predicate IsOverall(i: Insight) { i.story.LowOverallMean? || i.story.HighOverallMean? }

  lemma CountWhereAppend<T>(a: seq<T>, b: seq<T>, p: T -> bool)
    ensures CountWhere(a + b, p) == CountWhere(a, p) + CountWhere(b, p)
  {
    FilterAppend(a, b, p);
  }

  /** A list whose head alone satisfies `p` counts one. */
  lemma CountOnlyHead<T>(h: T, rest: seq<T>, p: T -> bool)
    requires p(h) && forall x :: x in rest ==> !p(x)
    ensures CountWhere([h] + rest, p) == 1
  {
    CountWhereAppend([h], rest, p);
    CountWhereZero(rest, p);
    assert [h][..0] == [];
  }

  /** Exactly one insight rates the overall mean, and it comes first. */
  lemma ExactlyOneOverall(ov: Stats.Overview, ss: Stats.SubjectStats, passMark: int)
    ensures var r := PerformanceInsights(ov, ss, passMark);
      && IsOverall(r[0])
      && CountWhere(r, IsOverall) == 1
  {
    var mean := SafeFloat(ov.overallMean);
    var head := OverallInsight(mean, passMark);
    var rest := FailRateInsight(ov) + WeakestInsight(ss.subjects, mean) + Collect(ss.subjects, SubjectFailRule);
    CollectAll(ss.subjects, SubjectFailRule, (i: Insight) => !IsOverall(i));
    assert forall x :: x in rest ==> !IsOverall(x);
    assert PerformanceInsights(ov, ss, passMark) == [head] + rest;
    CountOnlyHead(head, rest, IsOverall);
  }

  // ---------------------------------------------------------------------------------------------
  // Gaps

  /** A significant gender gap; critical for a medium or large effect. */
  function GenderRule(g: Gaps.GenderGap): (r: Option<Insight>)
    ensures r.Some? <==> g.significant
    ensures r.Some? ==> r.value.category == Gap && r.value.story == GenderGapStory(g)
    ensures r.Some? ==> (r.value.severity == Critical <==> g.effectLabel == Gaps.Large || g.effectLabel == Gaps.Medium)
    ensures r.Some? ==> r.value.severity != Info
  {
    if g.significant then
      Some(Insight("gap_gender_" + Text.Slug(g.title), Gap,
        if g.effectLabel == Gaps.Large || g.effectLabel == Gaps.Medium then Critical else Warning,
        "Gender Gap: " + g.title, GenderGapStory(g), GenderStrategies))
    else None
  }

  /** A significant class gap; critical when the spread exceeds 15 points. */
  function ClassRule(g: Gaps.ClassGap): (r: Option<Insight>)
    ensures r.Some? <==> g.significant
    ensures r.Some? ==> r.value.category == Gap && r.value.story == ClassGapStory(g)
    ensures r.Some? ==> (r.value.severity == Critical <==> Round(g.spread.gap, 2) > 15.0) && r.value.severity != Info
  {
    if g.significant then
      Some(Insight("gap_class", Gap, if Round(g.spread.gap, 2) > 15.0 then Critical else Warning,
        "Significant Class Performance Gap", ClassGapStory(g), ClassAllocation))
    else None
  }

  /** A significant regional gap; critical when the spread exceeds 20 points. */
  function RegionRule(g: Gaps.RegionalGap): (r: Option<Insight>)
    ensures r.Some? <==> g.significant
    ensures r.Some? ==> r.value.category == Gap && r.value.story == RegionalGapStory(g)
    ensures r.Some? ==> (r.value.severity == Critical <==> Round(g.spread.gap, 2) > 20.0) && r.value.severity != Info
  {
    if g.significant then
      Some(Insight("gap_regional", Gap, if Round(g.spread.gap, 2) > 20.0 then Critical else Warning,
        "Regional Performance Disparity", RegionalGapStory(g), RegionalResources))
    else None
  }

  /** A term spread over 5 points, with no significance test; a warning over 10. */
  function TermRule(s: Gaps.Spread): (r: Option<Insight>)
    ensures r.Some? <==> Round(s.gap, 2) > 5.0
    ensures r.Some? ==> r.value.category == Gap && r.value.story == TermGapStory(s)
    ensures r.Some? ==> (r.value.severity == Warning <==> Round(s.gap, 2) > 10.0) && r.value.severity != Critical
  {
    var gap := Round(s.gap, 2);
    if gap > 5.0 then
      Some(Insight("gap_term", Gap, if gap > 10.0 then Warning else Info, "Term Performance Variation",
        TermGapStory(s), TermPacing))
    else None
  }

  /** `_gap_insights`. */
  function GapInsights(r: Gaps.GapReport): seq<Insight>
  {
    Collect(r.genderGaps, GenderRule) + Collect(r.classGaps, ClassRule)
    + Collect(r.regionalGaps, RegionRule) + Collect(r.termGaps, TermRule)
  }

  method ComputeGapInsights(r: Gaps.GapReport) returns (out: seq<Insight>)
    ensures out == GapInsights(r)
  {
    var gender := CollectLoop(r.genderGaps, GenderRule);
    var classes := CollectLoop(r.classGaps, ClassRule);
    var regions := CollectLoop(r.regionalGaps, RegionRule);
    var terms := CollectLoop(r.termGaps, TermRule);
    out := gender + classes + regions + terms;
  }

  // ---------------------------------------------------------------------------------------------
  // Counting by key, in first-appearance order (a counting dict)

  /** `d[k] = d.get(k, 0) + 1`. */
  function Bump<K(==)>(d: seq<(K, nat)>, k: K): (r: seq<(K, nat)>)
    ensures |r| >= |d|
  {
    if d == [] then [(k, 1)]
    else if d[0].0 == k then [(k, d[0].1 + 1)] + d[1..]
    else [d[0]] + Bump(d[1..], k)
  }

  /** `d.get(k, 0)`. */
  function CountOf<K(==)>(d: seq<(K, nat)>, k: K): nat
  {
    if d == [] then 0 else if d[0].0 == k then d[0].1 else CountOf(d[1..], k)
  }

  /** `sum(d.values())`. */
  function Total<K>(d: seq<(K, nat)>): nat
  {
    if d == [] then 0 else d[0].1 + Total(d[1..])
  }

  predicate KeysUnique<K(==)>(d: seq<(K, nat)>)
  {
    forall a, b :: 0 <= a < b < |d| ==> d[a].0 != d[b].0
  }

  /** The counts of `ks`, keyed in first-appearance order. */
  function Tally<K(==)>(ks: seq<K>): seq<(K, nat)>
  {
    if ks == [] then [] else Bump(Tally(ks[..|ks| - 1]), ks[|ks| - 1])
  }

  /** The number of occurrences of `k` in `ks`. */
  function Occ<K(==)>(ks: seq<K>, k: K): nat
  {
    if ks == [] then 0 else Occ(ks[..|ks| - 1], k) + (if ks[|ks| - 1] == k then 1 else 0)
  }

  lemma {:induction false} BumpSpec<K>(d: seq<(K, nat)>, k: K, j: K)
    ensures CountOf(Bump(d, k), j) == CountOf(d, j) + (if j == k then 1 else 0)
    ensures Total(Bump(d, k)) == Total(d) + 1
    ensures (exists e :: e in Bump(d, k) && e.0 == j) <==> j == k || exists e :: e in d && e.0 == j
  {
    if d != [] && d[0].0 != k {
      BumpSpec(d[1..], k, j);
      assert Bump(d, k)[1..] == Bump(d[1..], k);
      assert forall e :: e in d <==> e == d[0] || e in d[1..];
      assert forall e :: e in Bump(d, k) <==> e == d[0] || e in Bump(d[1..], k);
    } else if d != [] {
      assert Bump(d, k)[1..] == d[1..];
      assert forall e :: e in d <==> e == d[0] || e in d[1..];
    }
  }

  lemma {:induction false} BumpUnique<K>(d: seq<(K, nat)>, k: K)
    requires KeysUnique(d)
    ensures KeysUnique(Bump(d, k))
  {
    if d != [] && d[0].0 != k {
      assert KeysUnique(d[1..]);
      BumpUnique(d[1..], k);
      var t := Bump(d[1..], k);
      assert Bump(d, k) == [d[0]] + t;
      forall b | 0 <= b < |t|
        ensures t[b].0 != d[0].0
      {
        BumpSpec(d[1..], k, t[b].0);
        assert t[b] in t;
        assert exists e :: e in t && e.0 == t[b].0;
        if t[b].0 != k {
          var e :| e in d[1..] && e.0 == t[b].0;
          var m :| 0 <= m < |d[1..]| && d[1..][m] == e;
          assert d[m + 1] == e;
        }
      }
    }
  }

  /** In a table with unique keys, an entry's count is the count of its key. */
  lemma {:induction false} EntryCount<K>(d: seq<(K, nat)>, e: (K, nat))
    requires KeysUnique(d) && e in d
    ensures CountOf(d, e.0) == e.1
  {
    if d[0] != e {
      assert KeysUnique(d[1..]);
      assert e in d[1..];
      var m :| 0 <= m < |d[1..]| && d[1..][m] == e;
      assert d[m + 1] == e;
      EntryCount(d[1..], e);
    }
  }

  /** The tally counts every key's occurrences, holds each key once and exactly the keys that
   *  occur, and its counts add up to the number of keys. */
  lemma {:induction false} TallySpec<K>(ks: seq<K>, j: K)
    ensures CountOf(Tally(ks), j) == Occ(ks, j)
    ensures Total(Tally(ks)) == |ks|
    ensures KeysUnique(Tally(ks))
    ensures (exists e :: e in Tally(ks) && e.0 == j) <==> j in ks
  {
    if ks != [] {
      var p := ks[..|ks| - 1];
      TallySpec(p, j);
      BumpSpec(Tally(p), ks[|ks| - 1], j);
      BumpUnique(Tally(p), ks[|ks| - 1]);
      assert forall x :: x in ks <==> x in p || x == ks[|ks| - 1];
    }
  }

  /** Every entry of a tally carries the number of occurrences of its key, which occurs. */
  lemma TallyEntry<K>(ks: seq<K>, e: (K, nat))
    requires e in Tally(ks)
    ensures e.1 == Occ(ks, e.0) && e.0 in ks
  {
    TallySpec(ks, e.0);
    EntryCount(Tally(ks), e);
  }

  /** `for k in ks: d[k] = d.get(k, 0) + 1`. */
  method TallyLoop<K(==)>(ks: seq<K>) returns (d: seq<(K, nat)>)
    ensures d == Tally(ks)
  {
    d := [];
    var k := 0;
    while k < |ks|
      invariant 0 <= k <= |ks|
      invariant d == Tally(ks[..k])
    {
      assert ks[..k + 1][..k] == ks[..k];
      d := Bump(d, ks[k]);
      k := k + 1;
    }
    assert ks[..|ks|] == ks;
  }

  // ---------------------------------------------------------------------------------------------
  // At-risk students

  /** The high-risk summary; the share is re-rounded to two decimals. */
  function RiskSummaryInsight(m: Risk.Summary): (r: seq<Insight>)
    ensures |r| <= 1
    ensures r != [] <==> m.highRisk > 0
    ensures r != [] ==> r[0].category == AtRisk && r[0].story == RiskSummary(m.total, m.highRisk, m.mediumRisk, Round(m.highRiskPct, 2))
    ensures r != [] ==> (r[0].severity == Critical <==> Round(m.highRiskPct, 2) > 25.0)
    ensures r != [] ==> (r[0].severity == Warning <==> 15.0 < Round(m.highRiskPct, 2) <= 25.0)
    ensures r != [] ==> (r[0].severity == Info <==> Round(m.highRiskPct, 2) <= 15.0)
  {
    var pct := Round(m.highRiskPct, 2);
    if m.highRisk > 0 then
      [Insight("risk_summary", AtRisk, if pct > 25.0 then Critical else if pct > 15.0 then Warning else Info,
        Text.NatToString(m.highRisk) + " Student(s) at High Risk",
        RiskSummary(m.total, m.highRisk, m.mediumRisk, pct), InterventionPlans)]
    else []
  }

  /** `if cls:` on a student's class label. */
  predicate InClass(a: Risk.Assessment) { a.className.Some? && a.className.value != "" }

  /** The class labels of the students that have one, in order. */
  function ClassLabels(students: seq<Risk.Assessment>): (r: seq<string>)
  {
    if students == [] then []
    else
      var a := students[|students| - 1];
      ClassLabels(students[..|students| - 1]) + (if InClass(a) then [a.className.value] else [])
  }

  /** A class with at least three high-risk students is a cluster. */
  function ClusterRule(e: (string, nat), classTotal: nat): (r: Option<Insight>)
    ensures r.Some? <==> e.1 >= 3
    ensures r.Some? ==> r.value.severity == Critical && r.value.category == AtRisk
    ensures r.Some? ==> r.value.story == ClassRiskCluster(e.0, e.1, classTotal)
  {
    if e.1 >= 3 then
      Some(Insight("risk_cluster_" + Text.Slug(e.0), AtRisk, Critical, "Risk Cluster in " + e.0,
        ClassRiskCluster(e.0, e.1, classTotal), ClassReview(e.0)))
    else None
  }

  function ClusterOf(totals: seq<(string, nat)>): ((string, nat)) -> Option<Insight>
  {
    (e: (string, nat)) => ClusterRule(e, CountOf(totals, e.0))
  }

  /** The class counts of all students and of the high-risk ones, then one insight per cluster. */
  function Clusters(students: seq<Risk.Assessment>): seq<Insight>
  {
    var totals := Tally(ClassLabels(students));
    var risky := Tally(ClassLabels(Filter(students, Risk.IsHigh)));
    Collect(risky, ClusterOf(totals))
  }

  /** `_at_risk_insights`; `classColumn` says whether the table has a class column. */
  function AtRiskInsights(risk: Risk.RiskReport, classColumn: bool): seq<Insight>
  {
    match risk
    case NoStudentColumn => []
    case Report(students, summary) =>
      if summary.total == 0 then []
      else RiskSummaryInsight(summary) + (if classColumn then Clusters(students) else [])
  }

  method ComputeAtRiskInsights(risk: Risk.RiskReport, classColumn: bool) returns (out: seq<Insight>)
    ensures out == AtRiskInsights(risk, classColumn)
  {
    if risk.NoStudentColumn? || risk.summary.total == 0 {
      return [];
    }
    out := RiskSummaryInsight(risk.summary);
    if classColumn {
      var students := risk.students;
      var totals := TallyLoop(ClassLabels(students));
      var risky := TallyLoop(ClassLabels(Filter(students, Risk.IsHigh)));
      var clusters := CollectLoop(risky, ClusterOf(totals));
      out := out + clusters;
    }
  }

  /** The high-risk students of a class are among its students. */
  lemma {:induction false} HighLabelsBounded(students: seq<Risk.Assessment>, c: string)
    ensures Occ(ClassLabels(Filter(students, Risk.IsHigh)), c) <= Occ(ClassLabels(students), c)
  {
    if students != [] {
      var p := students[..|students| - 1];
      var a := students[|students| - 1];
      HighLabelsBounded(p, c);
      var hp := Filter(p, Risk.IsHigh);
      var tail := if Risk.IsHigh(a) then [a] else [];
      assert Filter(students, Risk.IsHigh) == hp + tail;
      LabelsAppend(hp, tail);
      var lt := if InClass(a) then [a.className.value] else [];
      OccAppend(ClassLabels(p), lt, c);
      OccAppend(ClassLabels(hp), ClassLabels(tail), c);
      if tail != [] {
        assert ClassLabels(tail) == ClassLabels(tail[..0]) + lt;
      }
    }
  }

  lemma {:induction false} LabelsAppend(a: seq<Risk.Assessment>, b: seq<Risk.Assessment>)
    ensures ClassLabels(a + b) == ClassLabels(a) + ClassLabels(b)
  {
    if b != [] {
      assert (a + b)[..|a + b| - 1] == a + b[..|b| - 1];
      LabelsAppend(a, b[..|b| - 1]);
    } else {
      assert a + b == a;
    }
  }

  lemma {:induction false} OccAppend<K>(a: seq<K>, b: seq<K>, k: K)
    ensures Occ(a + b, k) == Occ(a, k) + Occ(b, k)
  {
    if b != [] {
      assert (a + b)[..|a + b| - 1] == a + b[..|b| - 1];
      OccAppend(a, b[..|b| - 1], k);
    } else {
      assert a + b == a;
    }
  }

  /** A cluster insight names a class with at least three high-risk students, states that number
   *  and the class size, which is at least as large; every such class gets one. */
  lemma ClustersSpec(students: seq<Risk.Assessment>, c: string)
    ensures var highs := ClassLabels(Filter(students, Risk.IsHigh));
      && (forall i :: i in Clusters(students) ==>
            && i.severity == Critical && i.story.ClassRiskCluster?
            && i.story.highCount == Occ(highs, i.story.className) >= 3
            && i.story.classTotal == Occ(ClassLabels(students), i.story.className)
            && i.story.highCount <= i.story.classTotal)
      && (Occ(highs, c) >= 3 ==> exists i :: i in Clusters(students) && i.story == ClassRiskCluster(c, Occ(highs, c), Occ(ClassLabels(students), c)))
  {
    var labels := ClassLabels(students);
    var highs := ClassLabels(Filter(students, Risk.IsHigh));
    var totals := Tally(labels);
    var risky := Tally(highs);
    var rule := ClusterOf(totals);
    forall i | i in Clusters(students)
      ensures && i.severity == Critical && i.story.ClassRiskCluster?
              && i.story.highCount == Occ(highs, i.story.className) >= 3
              && i.story.classTotal == Occ(labels, i.story.className)
              && i.story.highCount <= i.story.classTotal
    {
      CollectMembers(risky, rule, i);
      var k :| 0 <= k < |risky| && rule(risky[k]) == Some(i);
      var e := risky[k];
      TallyEntry(highs, e);
      TallySpec(labels, e.0);
      HighLabelsBounded(students, e.0);
    }
    if Occ(highs, c) >= 3 {
      TallySpec(highs, c);
      OccPositive(highs, c);
      var e :| e in risky && e.0 == c;
      TallyEntry(highs, e);
      TallySpec(labels, c);
      var k :| 0 <= k < |risky| && risky[k] == e;
      CollectMembers(risky, rule, rule(e).value);
    }
  }

  lemma {:induction false} OccPositive<K>(ks: seq<K>, k: K)
    requires Occ(ks, k) > 0
    ensures k in ks
  {
    if ks[|ks| - 1] != k {
      OccPositive(ks[..|ks| - 1], k);
    }
  }

  /** Nothing is said about at-risk students when there are none. */
  lemma NoStudentsNoInsights(risk: Risk.RiskReport, classColumn: bool)
    requires risk.NoStudentColumn? || risk.summary.total == 0
    ensures AtRiskInsights(risk, classColumn) == []
  {
  }

  // ---------------------------------------------------------------------------------------------
  // Positive insights

  /** A top student averaging at least 80 (the reported name is the group key's text). */
  function TopRule(st: Stats.Ranked): (r: Option<Insight>)
    ensures r.Some? <==> SafeFloat(st.mean) >= 80.0
    ensures r.Some? ==> r.value.category == Positive && r.value.severity == Info
    ensures r.Some? ==> r.value.story == TopPerformer(CellString(st.key), SafeFloat(st.mean))
  {
    var mean := SafeFloat(st.mean);
    var name := CellString(st.key);
    if mean >= 80.0 then
      Some(Insight("pos_top_" + Text.Slug(name), Positive, Info, "Top Performer: " + name,
        TopPerformer(name, mean), RecogniseStudent))
    else None
  }

  /** A subject with a pass rate of at least 85%. */
  function StrongRule(s: Stats.SubjectStat): (r: Option<Insight>)
    ensures r.Some? <==> Round(s.passRate, 2) >= 85.0
    ensures r.Some? ==> r.value.category == Positive && r.value.severity == Info
    ensures r.Some? ==> r.value.story == StrongSubject(s.subject, Round(s.passRate, 2))
  {
    var rate := Round(s.passRate, 2);
    if rate >= 85.0 then
      Some(Insight("pos_strong_" + Text.Slug(s.subject), Positive, Info, "Strong Subject: " + s.subject,
        StrongSubject(s.subject, rate), ShareStrategies(s.subject)))
    else None
  }

  /** The last term's mean more than 2 points above the first term's. */
  function TrendInsight(trends: seq<(string, Option<real>)>): (r: seq<Insight>)
    ensures |r| <= 1
    ensures r != [] <==> |trends| >= 2 && SafeFloat(trends[|trends| - 1].1) > SafeFloat(trends[0].1) + 2.0
    ensures r != [] ==> r[0].category == Positive && r[0].severity == Info
    ensures r != [] ==> r[0].story == ImprovingTrend(trends[|trends| - 1].0, SafeFloat(trends[|trends| - 1].1),
                                                     trends[0].0, SafeFloat(trends[0].1))
  {
    if |trends| >= 2 then
      var first := trends[0];
      var last := trends[|trends| - 1];
      var fm, lm := SafeFloat(first.1), SafeFloat(last.1);
      if lm > fm + 2.0 then
        [Insight("pos_improving_trend", Positive, Info, "Positive Performance Trend",
          ImprovingTrend(last.0, lm, first.0, fm), ContinueStrategies)]
      else []
    else []
  }

  /** The percentage the improvement rule derives for itself: score over max score, not rounded. */
  function RawPct(row: Row, sc: string, mc: Option<string>): Option<real>
  {
    var s := ToNumeric(Get(row, sc));
    if mc.Some? then
      var m := ToNumeric(Get(row, mc.value));
      if m.Some? && m.value > 0.0 then (if s.Some? then Some(s.value / m.value * 100.0) else None) else s
    else s
  }

  function WithPct(rows: seq<Row>, pct: Row -> Option<real>): (r: seq<Row>)
    ensures |r| == |rows|
  {
    seq(|rows|, k requires 0 <= k < |rows| => rows[k]["percentage" := CellOf(pct(rows[k]))])
  }

  /** The copy of the table the improvement rule works on, when it makes one. Without a
   *  percentage column and without a score column the copy has no percentage column. */
  function ImprovingTable(df: Frame): Option<Frame>
  {
    var termCol := FindCol(df.columns, Stats.TERM_ALIASES);
    var studentCol := FindCol(df.columns, Stats.STUDENT_ALIASES);
    if termCol.Some? && studentCol.Some? && "percentage" !in df.columns then
      match FindCol(df.columns, Gaps.GAP_SCORE_ALIASES)
      case None => Some(df)
      case Some(sc) =>
        var mc := FindCol(df.columns, Gaps.GAP_MAX_ALIASES);
        Some(Frame(df.columns + ["score_num"] + (if mc.Some? then ["max_num"] else []) + ["percentage"],
          WithPct(df.rows, (row: Row) => RawPct(row, sc, mc))))
    else if "percentage" in df.columns then
      Some(Frame(df.columns, WithPct(df.rows, (row: Row) => ToNumeric(Get(row, "percentage")))))
    else None
  }

  /** A student's term means in calendar order of the term labels, skipping missing means; a
   *  term key that is not text is never found by its label. */
  function TermSeries(sdf: seq<Row>, termCol: string): seq<real>
  {
    var groups := Stats.GroupMeans(sdf, termCol);
    var labels := Grading.SortTerms(Stats.KeyLabels(groups));
    Terms.Present(seq(|labels|, k requires 0 <= k < |labels| => Stats.TermLabelMean(groups, labels[k])))
  }

  /** A student whose term means rise by more than 3 points a term (least-squares slope). */
  function ImprovingRule(rows: seq<Row>, termCol: string, studentCol: string, nameCol: Option<string>, sid: Cell): (r: Option<Insight>)
    ensures r.Some? <==> var v := TermSeries(RowsWhere(rows, studentCol, sid), termCol); |v| >= 2 && Slope(v) > 3.0
    ensures r.Some? ==> r.value.category == Positive && r.value.severity == Info && r.value.story.MostImproved?
    ensures r.Some? ==> r.value.story.slope > 3.0
  {
    var sdf := RowsWhere(rows, studentCol, sid);
    var values := TermSeries(sdf, termCol);
    if |values| >= 2 && Slope(values) > 3.0 then
      var name := if nameCol.Some? && sdf != [] then CellString(Get(sdf[0], nameCol.value)) else CellString(sid);
      Some(Insight("pos_improving_" + Text.Slug(CellString(sid)), Positive, Info, "Most Improved: " + name,
        MostImproved(name, Slope(values)), AcknowledgeProgress))
    else None
  }

  function ImprovingOf(rows: seq<Row>, termCol: string, studentCol: string, nameCol: Option<string>): Cell -> Option<Insight>
  {
    (sid: Cell) => ImprovingRule(rows, termCol, studentCol, nameCol, sid)
  }

  /** Rule 2 of `_positive_insights`: every present student, in order of first appearance. */
  function ImprovingInsights(df: Frame): seq<Insight>
  {
    var termCol := FindCol(df.columns, Stats.TERM_ALIASES);
    var studentCol := FindCol(df.columns, Stats.STUDENT_ALIASES);
    match ImprovingTable(df)
    case None => []
    case Some(t) =>
      if termCol.Some? && studentCol.Some? then
        Collect(PresentUnique(t.rows, studentCol.value),
          ImprovingOf(t.rows, termCol.value, studentCol.value, FindCol(t.columns, Stats.NAME_ALIASES)))
      else []
  }

  /** `_positive_insights`. */
  function PositiveInsights(ov: Stats.Overview, ss: Stats.SubjectStats, df: Frame): seq<Insight>
  {
    Collect(Take(ov.topStudents.GetOr([]), 3), TopRule) + ImprovingInsights(df)
    + Collect(ss.subjects, StrongRule) + TrendInsight(ov.termTrends.GetOr([]))
  }

  method ComputeImprovingInsights(df: Frame) returns (out: seq<Insight>)
    ensures out == ImprovingInsights(df)
  {
    var termCol := FindCol(df.columns, Stats.TERM_ALIASES);
    var studentCol := FindCol(df.columns, Stats.STUDENT_ALIASES);
    var table := ImprovingTable(df);
    if table.None? || termCol.None? || studentCol.None? {
      return [];
    }
    var t := table.value;
    out := CollectLoop(PresentUnique(t.rows, studentCol.value),
      ImprovingOf(t.rows, termCol.value, studentCol.value, FindCol(t.columns, Stats.NAME_ALIASES)));
  }

  method ComputePositiveInsights(ov: Stats.Overview, ss: Stats.SubjectStats, df: Frame) returns (out: seq<Insight>)
    ensures out == PositiveInsights(ov, ss, df)
  {
    out := CollectLoop(Take(ov.topStudents.GetOr([]), 3), TopRule);
    var improving := ComputeImprovingInsights(df);
    var strong := CollectLoop(ss.subjects, StrongRule);
    out := out + improving + strong + TrendInsight(ov.termTrends.GetOr([]));
  }

  /** At most three top performers are named, each averaging at least 80. */
  lemma TopPerformersSpec(ov: Stats.Overview)
    ensures var r := Collect(Take(ov.topStudents.GetOr([]), 3), TopRule);
      && |r| <= 3
      && forall i :: i in r ==> i.story.TopPerformer? && i.story.studentMean >= 80.0
  {
    CollectAll(Take(ov.topStudents.GetOr([]), 3), TopRule,
      (i: Insight) => i.story.TopPerformer? && i.story.studentMean >= 80.0);
  }

  // ---------------------------------------------------------------------------------------------
  // Correlations

  /** A strong (|r| > 0.6) and significant (p < 0.05) correlation, both read through
   *  `_safe_float`, so a missing p-value reads as 0 and passes. */
  function CorrelationRule(pair: Stats.CorrPair): (r: Option<Insight>)
    ensures r.Some? <==> Abs(SafeFloat(pair.r)) > 0.6 && SafeFloat(pair.p) < 0.05
    ensures r.Some? ==> r.value.category == Correlation && r.value.severity == Info
    ensures r.Some? ==> r.value.story == StrongCorrelation(pair.subjectA, pair.subjectB, SafeFloat(pair.r), SafeFloat(pair.p))
  {
    var rv, pv := SafeFloat(pair.r), SafeFloat(pair.p);
    if Abs(rv) > 0.6 && pv < 0.05 then
      Some(Insight("corr_" + Text.Slug(pair.subjectA) + "_" + Text.Slug(pair.subjectB), Correlation, Info,
        "Strong Correlation: " + pair.subjectA + " ↔ " + pair.subjectB,
        StrongCorrelation(pair.subjectA, pair.subjectB, rv, pv), CrossCurricular(pair.subjectA, pair.subjectB)))
    else None
  }

  /** `_correlation_insights`. */
  function CorrelationInsights(ss: Stats.SubjectStats): seq<Insight>
  {
    Collect(ss.pairs.GetOr([]), CorrelationRule)
  }

  /** A missing p-value does not stop a strong coefficient from being reported. */
  lemma MissingPValuePasses(a: string, b: string, r: real)
    requires Abs(Round(r, 2)) > 0.6
    ensures CorrelationRule(Stats.CorrPair(a, b, Some(r), None)).Some?
  {
  }

  // ---------------------------------------------------------------------------------------------
  // The whole report

  function SeverityRank(s: Severity): nat
  {
    match s
    case Critical => 0
    case Warning => 1
    case Info => 2
  }

  predicate SeverityLe(a: Insight, b: Insight) { SeverityRank(a.severity) <= SeverityRank(b.severity) }

  lemma SeverityLeTotalPreorder()
    ensures TotalPreorder(SeverityLe)
  {
  }

  function CategoryList(s: seq<Insight>): (r: seq<Category>)
    ensures |r| == |s|
  {
    seq(|s|, k requires 0 <= k < |s| => s[k].category)
  }

  function SeverityList(s: seq<Insight>): (r: seq<Severity>)
    ensures |r| == |s|
  {
    seq(|s|, k requires 0 <= k < |s| => s[k].severity)
  }

  function ToItem(i: Insight): Item
  {
    Item(i.category, i.severity, i.title, AdviceText(i.advice))
  }

  function Items(s: seq<Insight>): (r: seq<Item>)
    ensures |r| == |s|
  {
    seq(|s|, k requires 0 <= k < |s| => ToItem(s[k]))
  }

  datatype InsightReport = InsightReport(insights: seq<Insight>, total: nat,
                                         byCategory: seq<(Category, nat)>, bySeverity: seq<(Severity, nat)>,
                                         executiveSummary: string)

  /** The insights ordered critical, warning, info (a stable sort), with their counts and
   *  executive summary. */
  function ReportOf(all: seq<Insight>): InsightReport
  {
    var sorted := SortBy(all, SeverityLe);
    InsightReport(sorted, |sorted|, Tally(CategoryList(sorted)), Tally(SeverityList(sorted)),
      ExecutiveSummary(Items(sorted)))
  }

  /** The five families in generation order: performance, gaps, at-risk, positive, correlations. */
  function Assemble(ov: Stats.Overview, ss: Stats.SubjectStats, g: Gaps.GapReport, risk: Risk.RiskReport,
                    classColumn: bool, passMark: int, df: Frame): seq<Insight>
  {
    PerformanceInsights(ov, ss, passMark) + GapInsights(g) + AtRiskInsights(risk, classColumn)
    + PositiveInsights(ov, ss, df) + CorrelationInsights(ss)
  }

  /** Every insight the engine produces, in generation order. */
  function AllInsights(df: Frame, passMark: int, ttest: Gaps.TTestFn, ftest: Gaps.FTestFn,
                       disp: Dispersion, pearson: Stats.Pearson): seq<Insight>
    requires Lawful(disp)
  {
    Assemble(Stats.ComputeOverview(df, passMark, disp), Stats.SubjectStatsOf(df, passMark, disp, pearson),
      Gaps.GapAnalysis(df, ttest, ftest, disp), Risk.RiskReportOf(df, passMark, disp),
      FindCol(df.columns, Stats.CLASS_ALIASES).Some?, passMark, df)
  }

  method ComputeAssemble(ov: Stats.Overview, ss: Stats.SubjectStats, g: Gaps.GapReport, risk: Risk.RiskReport,
                         classColumn: bool, passMark: int, df: Frame) returns (all: seq<Insight>)
    ensures all == Assemble(ov, ss, g, risk, classColumn, passMark, df)
  {
    all := ComputePerformanceInsights(ov, ss, passMark);
    var part := ComputeGapInsights(g);
    all := all + part;
    part := ComputeAtRiskInsights(risk, classColumn);
    all := all + part;
    part := ComputePositiveInsights(ov, ss, df);
    all := all + part;
    part := CorrelationLoop(ss);
    all := all + part;
  }

  /** `generate_all_insights`. */
  method GenerateAllInsights(df: Frame, passMark: int, ttest: Gaps.TTestFn, ftest: Gaps.FTestFn,
                             disp: Dispersion, pearson: Stats.Pearson) returns (r: InsightReport)
    requires Lawful(disp)
    ensures r == ReportOf(AllInsights(df, passMark, ttest, ftest, disp, pearson))
  {
    var all := ComputeAllInsights(df, passMark, ttest, ftest, disp, pearson);
    r := BuildReport(all);
  }

  /** The analyses `generate_all_insights` runs, and the insights of each family. */
  method ComputeAllInsights(df: Frame, passMark: int, ttest: Gaps.TTestFn, ftest: Gaps.FTestFn,
                            disp: Dispersion, pearson: Stats.Pearson) returns (all: seq<Insight>)
    requires Lawful(disp)
    ensures all == AllInsights(df, passMark, ttest, ftest, disp, pearson)
  {
    var ov := Stats.ComputeOverview(df, passMark, disp);
    var ss := Stats.ComputeSubjectStats(df, passMark, disp, pearson);
    var risk := Risk.ComputeRiskScores(df, passMark, disp);
    var gaps := Gaps.ComputeGapAnalysis(df, passMark, ttest, ftest, disp);
    all := ComputeAssemble(ov, ss, gaps, risk, FindCol(df.columns, Stats.CLASS_ALIASES).Some?, passMark, df);
  }

  method BuildReport(all: seq<Insight>) returns (r: InsightReport)
    ensures r == ReportOf(all)
  {
    var sorted := SortBy(all, SeverityLe);
    var byCategory := TallyLoop(CategoryList(sorted));
    var bySeverity := TallyLoop(SeverityList(sorted));
    r := InsightReport(sorted, |sorted|, byCategory, bySeverity, ExecutiveSummary(Items(sorted)));
  }

  method CorrelationLoop(ss: Stats.SubjectStats) returns (out: seq<Insight>)
    ensures out == CorrelationInsights(ss)
  {
    out := CollectLoop(ss.pairs.GetOr([]), CorrelationRule);
  }

  /** The report lists the insights critical first, then warnings, then information, keeping
   *  generation order within a severity; its total is their number; the category and severity
   *  counts are those of the list and add up to the total. */
  lemma ReportSpec(all: seq<Insight>, c: Category, s: Severity)
    ensures var r := ReportOf(all);
      && multiset(r.insights) == multiset(all)
      && SortedBy(r.insights, SeverityLe)
      && (forall x :: Tied(r.insights, x, SeverityLe) == Tied(all, x, SeverityLe))
      && r.total == |all|
      && Total(r.byCategory) == r.total && Total(r.bySeverity) == r.total
      && CountOf(r.byCategory, c) == Occ(CategoryList(r.insights), c)
      && CountOf(r.bySeverity, s) == Occ(SeverityList(r.insights), s)
  {
    var sorted := SortBy(all, SeverityLe);
    SeverityLeTotalPreorder();
    SortByPerm(all, SeverityLe);
    SortBySorted(all, SeverityLe);
    forall x ensures Tied(sorted, x, SeverityLe) == Tied(all, x, SeverityLe) {
      SortByStable(all, x, SeverityLe);
    }
    assert |sorted| == |all| by {
      assert |multiset(sorted)| == |multiset(all)|;
    }
    TallySpec(CategoryList(sorted), c);
    TallySpec(SeverityList(sorted), s);
  }

  predicate AllRenderableIn(s: seq<Insight>) { forall i :: i in s ==> Renderable(i.story) }

  lemma RenderableAppend(a: seq<Insight>, b: seq<Insight>)
    requires AllRenderableIn(a) && AllRenderableIn(b)
    ensures AllRenderableIn(a + b)
  {
  }

  lemma PerformanceRenderable(ov: Stats.Overview, ss: Stats.SubjectStats, passMark: int)
    ensures AllRenderableIn(PerformanceInsights(ov, ss, passMark))
  {
    var mean := SafeFloat(ov.overallMean);
    var a, b := [OverallInsight(mean, passMark)], FailRateInsight(ov);
    var c, d := WeakestInsight(ss.subjects, mean), Collect(ss.subjects, SubjectFailRule);
    assert AllRenderableIn(a) && AllRenderableIn(b) && AllRenderableIn(c);
    SubjectFailRenderable(ss.subjects);
    RenderableAppend(a, b);
    RenderableAppend(a + b, c);
    RenderableAppend(a + b + c, d);
  }

  lemma SubjectFailRenderable(subjects: seq<Stats.SubjectStat>)
    ensures AllRenderableIn(Collect(subjects, SubjectFailRule))
  {
    CollectAll(subjects, SubjectFailRule, (i: Insight) => i.story.SubjectHighFailRate?);
  }

  lemma GenderRenderable(gs: seq<Gaps.GenderGap>)
    requires forall g :: g in gs && g.significant ==> g.pValue.Some?
    ensures AllRenderableIn(Collect(gs, GenderRule))
  {
    CollectAll(gs, GenderRule, (i: Insight) => Renderable(i.story));
  }

  lemma ClassRenderable(gs: seq<Gaps.ClassGap>)
    requires forall g :: g in gs && g.significant ==> g.pValue.Some?
    ensures AllRenderableIn(Collect(gs, ClassRule))
  {
    CollectAll(gs, ClassRule, (i: Insight) => Renderable(i.story));
  }

  lemma GapReportRenderable(g: Gaps.GapReport)
    requires forall x :: x in g.genderGaps && x.significant ==> x.pValue.Some?
    requires forall x :: x in g.classGaps && x.significant ==> x.pValue.Some?
    ensures AllRenderableIn(GapInsights(g))
  {
    var a := Collect(g.genderGaps, GenderRule);
    var b := Collect(g.classGaps, ClassRule);
    var c := Collect(g.regionalGaps, RegionRule);
    var d := Collect(g.termGaps, TermRule);
    GenderRenderable(g.genderGaps);
    ClassRenderable(g.classGaps);
    CollectAll(g.regionalGaps, RegionRule, (i: Insight) => i.story.RegionalGapStory?);
    CollectAll(g.termGaps, TermRule, (i: Insight) => i.story.TermGapStory?);
    RenderableAppend(a, b);
    RenderableAppend(a + b, c);
    RenderableAppend(a + b + c, d);
  }

  lemma PositiveRenderable(ov: Stats.Overview, ss: Stats.SubjectStats, df: Frame)
    ensures AllRenderableIn(PositiveInsights(ov, ss, df))
  {
    var a := Collect(Take(ov.topStudents.GetOr([]), 3), TopRule);
    var b := ImprovingInsights(df);
    var c := Collect(ss.subjects, StrongRule);
    var d := TrendInsight(ov.termTrends.GetOr([]));
    CollectAll(Take(ov.topStudents.GetOr([]), 3), TopRule, (i: Insight) => i.story.TopPerformer?);
    ImprovingPlain(df);
    CollectAll(ss.subjects, StrongRule, (i: Insight) => i.story.StrongSubject?);
    assert AllRenderableIn(d);
    RenderableAppend(a, b);
    RenderableAppend(a + b, c);
    RenderableAppend(a + b + c, d);
  }

  lemma RiskRenderable(risk: Risk.RiskReport, classColumn: bool)
    ensures AllRenderableIn(AtRiskInsights(risk, classColumn))
  {
    RiskPlain(risk, classColumn);
  }

  lemma CorrelationRenderable(ss: Stats.SubjectStats)
    ensures AllRenderableIn(CorrelationInsights(ss))
  {
    CollectAll(ss.pairs.GetOr([]), CorrelationRule, (i: Insight) => i.story.StrongCorrelation?);
  }

  /** Whatever the gap analysis, the other families narrate only renderable stories. */
  lemma AssembleRenderable(ov: Stats.Overview, ss: Stats.SubjectStats, g: Gaps.GapReport, risk: Risk.RiskReport,
                           classColumn: bool, passMark: int, df: Frame)
    requires AllRenderableIn(GapInsights(g))
    ensures AllRenderableIn(Assemble(ov, ss, g, risk, classColumn, passMark, df))
  {
    var a := PerformanceInsights(ov, ss, passMark);
    var b := GapInsights(g);
    var c := AtRiskInsights(risk, classColumn);
    var d := PositiveInsights(ov, ss, df);
    var e := CorrelationInsights(ss);
    PerformanceRenderable(ov, ss, passMark);
    RiskRenderable(risk, classColumn);
    PositiveRenderable(ov, ss, df);
    CorrelationRenderable(ss);
    RenderableAppend(a, b);
    RenderableAppend(a + b, c);
    RenderableAppend(a + b + c, d);
    RenderableAppend(a + b + c + d, e);
  }

  lemma AnalysisRenderable(df: Frame, ttest: Gaps.TTestFn, ftest: Gaps.FTestFn, disp: Dispersion)
    requires Lawful(disp)
    ensures AllRenderableIn(GapInsights(Gaps.GapAnalysis(df, ttest, ftest, disp)))
  {
    Gaps.SignificantHasPValue(df, ttest, ftest, disp);
    GapReportRenderable(Gaps.GapAnalysis(df, ttest, ftest, disp));
  }

  /** Every narrative the engine produces can be rendered: the significant gender and class gaps
   *  it narrates carry their p-values. */
  lemma AllRenderable(df: Frame, passMark: int, ttest: Gaps.TTestFn, ftest: Gaps.FTestFn,
                      disp: Dispersion, pearson: Stats.Pearson)
    requires Lawful(disp)
    ensures AllRenderableIn(AllInsights(df, passMark, ttest, ftest, disp, pearson))
  {
    AnalysisRenderable(df, ttest, ftest, disp);
    AssembleRenderable(Stats.ComputeOverview(df, passMark, disp), Stats.SubjectStatsOf(df, passMark, disp, pearson),
      Gaps.GapAnalysis(df, ttest, ftest, disp), Risk.RiskReportOf(df, passMark, disp),
      FindCol(df.columns, Stats.CLASS_ALIASES).Some?, passMark, df);
  }

  lemma RiskPlain(risk: Risk.RiskReport, classColumn: bool)
    ensures forall i :: i in AtRiskInsights(risk, classColumn) ==> i.story.RiskSummary? || i.story.ClassRiskCluster?
  {
    if risk.Report? && classColumn {
      var students := risk.students;
      var totals := Tally(ClassLabels(students));
      var risky := Tally(ClassLabels(Filter(students, Risk.IsHigh)));
      CollectAll(risky, ClusterOf(totals), (i: Insight) => i.story.ClassRiskCluster?);
    }
  }

  lemma ImprovingPlain(df: Frame)
    ensures forall i :: i in ImprovingInsights(df) ==> i.story.MostImproved?
  {
    var termCol := FindCol(df.columns, Stats.TERM_ALIASES);
    var studentCol := FindCol(df.columns, Stats.STUDENT_ALIASES);
    var t := ImprovingTable(df);
    if t.Some? && termCol.Some? && studentCol.Some? {
      var rows := t.value.rows;
      CollectAll(PresentUnique(rows, studentCol.value),
        ImprovingOf(rows, termCol.value, studentCol.value, FindCol(t.value.columns, Stats.NAME_ALIASES)),
        (i: Insight) => i.story.MostImproved?);
    }
  }

  /** A critical or warning insight always brings its recommendation into the executive summary's
   *  priority paragraph. */
  lemma UrgentHasRecommendation(i: Insight)
    requires i.severity == Critical || i.severity == Warning
    ensures Urgent(ToItem(i))
  {
    AdviceNonEmpty(i.advice);
  }
}
