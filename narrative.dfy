/** The sentence templates that turn findings into prose, and the executive summary that
 *  combines insights into paragraphs. Number rendering (`f"{x:.1f}"`) is a parameter. */
module Narrative {
  import opened Wrappers
  import opened Seqs
  import opened Numeric
  import Text
  import Gaps

  datatype Severity = Critical | Warning | Info
  datatype Category = Performance | Gap | AtRisk | Positive | Correlation

  function SeverityName(s: Severity): string
  {
    match s
    case Critical => "critical"
    case Warning => "warning"
    case Info => "info"
  }

  function CategoryName(c: Category): string
  {
    match c
    case Performance => "performance"
    case Gap => "gap"
    case AtRisk => "at_risk"
    case Positive => "positive"
    case Correlation => "correlation"
  }

  /** Fixed-point rendering of a number with the given count of decimals. */
  type Fixed = (real, nat) -> string

  function EffectName(e: Gaps.Effect): string
  {
    match e
    case Negligible => "negligible"
    case Small => "small"
    case Medium => "medium"
    case Large => "large"
  }

  // ---------------------------------------------------------------------------------------------
  // The decisions inside the templates

  /** The closing sentence of the risk summary, by the share of high-risk students. */
  datatype Urgency = Alarming | Immediate | Monitoring

  function UrgencyOf(highPct: real): (u: Urgency)
    ensures u == Alarming <==> highPct > 25.0
    ensures u == Immediate <==> 15.0 < highPct <= 25.0
    ensures u == Monitoring <==> highPct <= 15.0
  {
    if highPct > 25.0 then Alarming else if highPct > 15.0 then Immediate else Monitoring
  }

  function UrgencyRank(u: Urgency): nat
  {
    match u
    case Alarming => 2
    case Immediate => 1
    case Monitoring => 0
  }

  /** A larger high-risk share never reads as less urgent. */
  lemma UrgencyMonotone(p: real, q: real)
    requires p <= q
    ensures UrgencyRank(UrgencyOf(p)) <= UrgencyRank(UrgencyOf(q))
  {
  }

  function UrgencyText(u: Urgency): string
  {
    match u
    case Alarming => "This is an alarming proportion requiring immediate school-wide action."
    case Immediate => "This warrants immediate attention and targeted intervention plans."
    case Monitoring => "While manageable, these students need close monitoring."
  }

  datatype Group = Boys | Girls

  function GroupName(g: Group): string
  {
    match g
    case Boys => "boys"
    case Girls => "girls"
  }

  /** The group a gender gap's direction names as underperforming. */
  function Lagging(d: Gaps.Direction): (g: Group)
    ensures g == Girls <==> d == Gaps.GirlsUnderperforming
  {
    if d == Gaps.GirlsUnderperforming then Girls else Boys
  }

  /** The group the narrative calls lagging has the lower mean of a sound gender result. */
  lemma LaggingHasLowerMean(g: Gaps.GenderGap)
    requires Gaps.GenderGapSound(g)
    ensures Lagging(g.direction) == Girls ==> g.femaleMean <= g.maleMean
    ensures Lagging(g.direction) == Boys ==> g.maleMean <= g.femaleMean
  {
  }

  /** " in <subject>" for a per-subject result, nothing for the overall one. */
  function SubjectNote(title: string): (r: string)
    ensures r == "" <==> title == "Overall"
    ensures r != "" ==> Text.EndsWith(r, title)
  {
    if title != "Overall" then " in " + title else ""
  }

  /** The words describing a correlation coefficient. */
  datatype Tone = Tone(strength: string, direction: string, outcome: string)

  function ToneOf(r: real): (t: Tone)
    ensures t.direction == "positive" <==> r > 0.0
    ensures t.strength == "very strong" <==> Abs(r) > 0.8
    ensures t.outcome == "well" <==> t.direction == "positive"
  {
    Tone(if Abs(r) > 0.8 then "very strong" else "strong",
         if r > 0.0 then "positive" else "negative",
         if r > 0.0 then "well" else "poorly")
  }

  /** Opposite coefficients get opposite directions unless both are zero, and the same strength. */
  lemma ToneSymmetric(r: real)
    requires r != 0.0
    ensures ToneOf(r).strength == ToneOf(-r).strength
    ensures ToneOf(r).direction != ToneOf(-r).direction
  {
  }

  // ---------------------------------------------------------------------------------------------
  // The templates

  /** The arguments of each `narrate_*` template. */
  datatype Narration =
    | LowOverallMean(mean: real, passMark: int)
    | HighOverallMean(mean: real, passMark: int)
    | HighFailRate(failRate: real, failCount: nat, total: nat)
    | WeakestSubject(subject: string, subjectMean: real, schoolMean: real)
    | StrongestSubject(subject: string, subjectMean: real, schoolMean: real)
    | SubjectHighFailRate(subject: string, subjectFailRate: real)
    | GenderGapStory(gender: Gaps.GenderGap)
    | ClassGapStory(classes: Gaps.ClassGap)
    | TermGapStory(terms: Gaps.Spread)
    | RegionalGapStory(regions: Gaps.RegionalGap)
    | RiskSummary(students: nat, high: nat, medium: nat, highPct: real)
    | ClassRiskCluster(className: string, highCount: nat, classTotal: nat)
    | TopPerformer(name: string, studentMean: real)
    | MostImproved(name: string, slope: real)
    | StrongSubject(subject: string, passRate: real)
    | ImprovingTrend(bestTerm: string, bestMean: real, worstTerm: string, worstMean: real)
    | StrongCorrelation(subjectA: string, subjectB: string, r: real, p: real)

  /** The templates that print a p-value need one: formatting None fails. */
  predicate Renderable(n: Narration)
  {
    && (n.GenderGapStory? ==> n.gender.pValue.Some?)
    && (n.ClassGapStory? ==> n.classes.pValue.Some?)
  }

  function Tell(n: Narration, fx: Fixed): string
    requires Renderable(n)
  {
    match n
    case LowOverallMean(mean, pm) =>
      "The overall school mean is " + fx(mean, 1) + "%, which is " + fx(pm as real - mean, 1)
      + " percentage points below the pass mark of " + Text.IntToString(pm) + "%. This indicates "
      + "a systemic performance challenge that requires whole-school intervention."
    case HighOverallMean(mean, pm) =>
      "The overall school mean is " + fx(mean, 1) + "%, which is " + fx(mean - pm as real, 1)
      + " percentage points above the pass mark of " + Text.IntToString(pm) + "%. The school "
      + "is performing well overall."
    case HighFailRate(rate, count, total) =>
      fx(rate, 1) + "% of all scores (" + Text.NatToString(count) + " out of " + Text.NatToString(total)
      + ") fall below the pass mark. More than 4 in 10 student-subject scores "
      + "are failing, signalling a need for remedial intervention."
    case WeakestSubject(subject, mean, school) =>
      subject + " is the weakest subject with a mean of " + fx(mean, 1) + "%, which is "
      + fx(school - mean, 1) + " points below the school average of " + fx(school, 1) + "%. "
      + "Targeted teacher support and extra revision sessions are recommended."
    case StrongestSubject(subject, mean, school) =>
      subject + " is the strongest subject with a mean of " + fx(mean, 1) + "%, which is "
      + fx(mean - school, 1) + " points above the school average of " + fx(school, 1) + "%. "
      + "Consider sharing teaching strategies from this department with others."
    case SubjectHighFailRate(subject, rate) =>
      subject + " has a failure rate of " + fx(rate, 1) + "%. "
      + "More than half of students are failing this subject, "
      + "indicating a critical need for curriculum review or additional support."
    case GenderGapStory(g) => GenderText(g, fx)
    case ClassGapStory(g) =>
      "There is a " + fx(g.spread.gap, 1) + "-point gap between the best-performing class ("
      + g.spread.best + ", mean " + fx(g.spread.bestMean, 1) + "%) and the lowest-performing class ("
      + g.spread.worst + ", mean " + fx(g.spread.worstMean, 1) + "%). "
      + "This difference is statistically significant (p = " + fx(g.pValue.value, 4) + "). "
      + "Investigate teaching methods, resources, and class composition differences."
    case TermGapStory(s) =>
      "Performance varied across terms: " + s.best + " was the strongest (mean " + fx(s.bestMean, 1)
      + "%) while " + s.worst + " was the weakest (mean " + fx(s.worstMean, 1) + "%), a "
      + fx(s.gap, 1) + "-point spread. "
      + "Check whether curriculum pacing or external factors contributed."
    case RegionalGapStory(g) =>
      "A regional performance gap of " + fx(g.spread.gap, 1) + " points exists between "
      + g.spread.best + " (highest) and " + g.spread.worst + " (lowest). "
      + "Equity-focused resource allocation may help close this gap."
    case RiskSummary(total, high, medium, pct) => RiskText(total, high, medium, pct, fx)
    case ClassRiskCluster(c, count, total) =>
      "Class " + c + " has " + Text.NatToString(count) + " high-risk students out of "
      + Text.NatToString(total) + ", suggesting a class-level issue that may relate to teaching "
      + "approach, resources, or class dynamics. A class-level intervention is recommended."
    case TopPerformer(name, mean) =>
      name + " is a top performer with an overall average of " + fx(mean, 1) + "%. "
      + "Recognise this achievement and consider peer mentoring opportunities."
    case MostImproved(name, slope) =>
      name + " is showing strong improvement, gaining approximately " + fx(slope, 1)
      + " points per term. This positive trajectory should be acknowledged and encouraged."
    case StrongSubject(subject, rate) =>
      subject + " has an excellent pass rate of " + fx(rate, 1) + "%. "
      + "Teaching methods in this subject could serve as a model for others."
    case ImprovingTrend(best, bm, worst, wm) =>
      "School performance improved by " + fx(bm - wm, 1) + " points from " + worst + " ("
      + fx(wm, 1) + "%) to " + best + " (" + fx(bm, 1) + "%). "
      + "This positive trend suggests effective interventions are working."
    case StrongCorrelation(a, b, r, p) => CorrelationText(a, b, r, p, fx)
  }

  function GenderText(g: Gaps.GenderGap, fx: Fixed): string
    requires g.pValue.Some?
  {
    GenderHead(g, fx) + GenderClose(GroupName(Lagging(g.direction)))
  }

  function GenderHead(g: Gaps.GenderGap, fx: Fixed): string
    requires g.pValue.Some?
  {
    "A statistically significant gender gap exists" + SubjectNote(g.title) + " (p = "
    + fx(g.pValue.value, 4) + ", " + EffectName(g.effectLabel) + " effect size). Boys average "
    + fx(g.maleMean, 1) + "% while girls average " + fx(g.femaleMean, 1) + "%, with "
  }

  function GenderClose(lagging: string): string
  {
    lagging + " underperforming. Consider targeted support strategies for " + lagging + "."
  }

  function RiskText(total: nat, high: nat, medium: nat, pct: real, fx: Fixed): string
  {
    RiskHead(total, high, medium, pct, fx) + UrgencyText(UrgencyOf(pct))
  }

  function RiskHead(total: nat, high: nat, medium: nat, pct: real, fx: Fixed): string
  {
    "Out of " + Text.NatToString(total) + " students, " + Text.NatToString(high) + " (" + fx(pct, 1)
    + "%) are at high risk and " + Text.NatToString(medium) + " are at medium risk of academic "
    + "failure. "
  }

  function CorrelationText(a: string, b: string, r: real, p: real, fx: Fixed): string
  {
    var t := ToneOf(r);
    "A " + t.strength + " " + t.direction + " correlation (r = " + fx(r, 3) + ", p = " + fx(p, 4)
    + ") exists between " + a + " and " + b + ". Students who perform well in one tend to perform "
    + t.outcome + " in the other. Cross-subject teaching strategies could be beneficial."
  }

  lemma EndsWithAppend(a: string, b: string)
    ensures Text.EndsWith(a + b, b)
  {
    assert (a + b)[|a + b| - |b|..] == b;
  }

  /** The risk summary closes with the sentence its high-risk share calls for. */
  lemma RiskSummaryCloses(total: nat, high: nat, medium: nat, pct: real, fx: Fixed)
    ensures Text.EndsWith(Tell(RiskSummary(total, high, medium, pct), fx), UrgencyText(UrgencyOf(pct)))
  {
    EndsWithAppend(RiskHead(total, high, medium, pct, fx), UrgencyText(UrgencyOf(pct)));
  }

  /** The gender narrative closes by naming the lagging group, girls exactly when the direction
   *  says the girls underperform. */
  lemma GenderStoryCloses(g: Gaps.GenderGap, fx: Fixed)
    requires g.pValue.Some?
    ensures Text.EndsWith(Tell(GenderGapStory(g), fx), GenderClose(GroupName(Lagging(g.direction))))
  {
    EndsWithAppend(GenderHead(g, fx), GenderClose(GroupName(Lagging(g.direction))));
  }

  // ---------------------------------------------------------------------------------------------
  // The executive summary

  /** What the summary reads of an insight. */
  datatype Item = Item(category: Category, severity: Severity, title: string, recommendation: string)

  predicate IsCritical(i: Item) { i.severity == Critical }
  predicate IsWarning(i: Item) { i.severity == Warning }
  predicate IsPositive(i: Item) { i.category == Positive }
  predicate HasRecommendation(i: Item) { i.recommendation != "" }

  function Titles(items: seq<Item>): (r: seq<string>)
    ensures |r| == |items|
    ensures forall k :: 0 <= k < |r| ==> r[k] == items[k].title
  {
    seq(|items|, k requires 0 <= k < |items| => items[k].title)
  }

  function Recommendations(items: seq<Item>): (r: seq<string>)
    ensures |r| == |items|
    ensures forall k :: 0 <= k < |r| ==> r[k] == items[k].recommendation
  {
    seq(|items|, k requires 0 <= k < |items| => items[k].recommendation)
  }

  function Categories(items: seq<Item>): set<Category>
  {
    set i | i in items :: i.category
  }

  datatype Paragraph =
    | Opening(total: nat, categories: nat)
    | CriticalAttention(titles: seq<string>)
    | Concern(titles: seq<string>)
    | Encouraging(titles: seq<string>)
    | Priorities(recommendations: seq<string>)

  /** The recommendations of the critical items and then the warnings, where they are given. */
  function PriorityItems(items: seq<Item>): seq<Item>
  {
    Filter(Filter(items, IsCritical) + Filter(items, IsWarning), HasRecommendation)
  }

  function Section(present: bool, p: Paragraph): seq<Paragraph>
  {
    if present then [p] else []
  }

  function OpeningOf(items: seq<Item>): Paragraph { Opening(|items|, |Categories(items)|) }
  function CriticalOf(items: seq<Item>): Paragraph { CriticalAttention(Titles(Take(Filter(items, IsCritical), 3))) }
  function ConcernOf(items: seq<Item>): Paragraph { Concern(Titles(Take(Filter(items, IsWarning), 3))) }
  function EncouragingOf(items: seq<Item>): Paragraph { Encouraging(Titles(Take(Filter(items, IsPositive), 3))) }
  function PrioritiesOf(items: seq<Item>): Paragraph { Priorities(Recommendations(Take(PriorityItems(items), 3))) }

  function Paragraphs(items: seq<Item>): seq<Paragraph>
  {
    [OpeningOf(items)]
    + Section(Filter(items, IsCritical) != [], CriticalOf(items))
    + Section(Filter(items, IsWarning) != [], ConcernOf(items))
    + Section(Filter(items, IsPositive) != [], EncouragingOf(items))
    + Section(PriorityItems(items) != [], PrioritiesOf(items))
  }

  lemma FilterEmpty<T>(s: seq<T>, p: T -> bool)
    ensures Filter(s, p) == [] <==> forall k :: 0 <= k < |s| ==> !p(s[k])
  {
    CountWhereZero(s, p);
  }

  predicate Urgent(i: Item) { (IsCritical(i) || IsWarning(i)) && HasRecommendation(i) }

  lemma PriorityItemsEmpty(items: seq<Item>)
    ensures PriorityItems(items) == [] <==> forall k :: 0 <= k < |items| ==> !Urgent(items[k])
  {
    var both := Filter(items, IsCritical) + Filter(items, IsWarning);
    FilterEmpty(both, HasRecommendation);
    if exists k :: 0 <= k < |items| && Urgent(items[k]) {
      var k :| 0 <= k < |items| && Urgent(items[k]);
      assert items[k] in both;
    }
  }

  /** The summary opens with the count of insights and of their categories and holds no other
   *  paragraph than these: the critical, the concern, the encouraging and the priority paragraph,
   *  each exactly when an insight of its kind exists. */
  lemma ParagraphsSpec(items: seq<Item>, q: Paragraph)
    ensures Paragraphs(items)[0] == OpeningOf(items)
    ensures q in Paragraphs(items) <==>
      || q == OpeningOf(items)
      || (q == CriticalOf(items) && exists k :: 0 <= k < |items| && IsCritical(items[k]))
      || (q == ConcernOf(items) && exists k :: 0 <= k < |items| && IsWarning(items[k]))
      || (q == EncouragingOf(items) && exists k :: 0 <= k < |items| && IsPositive(items[k]))
      || (q == PrioritiesOf(items) && exists k :: 0 <= k < |items| && Urgent(items[k]))
  {
    ParagraphsMembers(items, q);
    FilterEmpty(items, IsCritical);
    FilterEmpty(items, IsWarning);
    FilterEmpty(items, IsPositive);
    PriorityItemsEmpty(items);
  }

  lemma SectionMembers(b: bool, p: Paragraph, q: Paragraph)
    ensures q in Section(b, p) <==> b && q == p
  {
  }

  lemma ParagraphsMembers(items: seq<Item>, q: Paragraph)
    ensures q in Paragraphs(items) <==>
      || q == OpeningOf(items)
      || (Filter(items, IsCritical) != [] && q == CriticalOf(items))
      || (Filter(items, IsWarning) != [] && q == ConcernOf(items))
      || (Filter(items, IsPositive) != [] && q == EncouragingOf(items))
      || (PriorityItems(items) != [] && q == PrioritiesOf(items))
  {
    var s1 := Section(Filter(items, IsCritical) != [], CriticalOf(items));
    var s2 := Section(Filter(items, IsWarning) != [], ConcernOf(items));
    var s3 := Section(Filter(items, IsPositive) != [], EncouragingOf(items));
    var s4 := Section(PriorityItems(items) != [], PrioritiesOf(items));
    assert Paragraphs(items) == [OpeningOf(items)] + s1 + s2 + s3 + s4;
    SectionMembers(Filter(items, IsCritical) != [], CriticalOf(items), q);
    SectionMembers(Filter(items, IsWarning) != [], ConcernOf(items), q);
    SectionMembers(Filter(items, IsPositive) != [], EncouragingOf(items), q);
    SectionMembers(PriorityItems(items) != [], PrioritiesOf(items), q);
  }

  /** The titled paragraphs name the first three titles of their kind, in order. */
  lemma SectionsSpec(items: seq<Item>)
    ensures var t := CriticalOf(items).titles; var c := Filter(items, IsCritical);
      |t| == if |c| < 3 then |c| else 3
    ensures forall k :: 0 <= k < |CriticalOf(items).titles| ==>
      CriticalOf(items).titles[k] == Filter(items, IsCritical)[k].title
    ensures forall k :: 0 <= k < |ConcernOf(items).titles| ==>
      ConcernOf(items).titles[k] == Filter(items, IsWarning)[k].title
    ensures forall k :: 0 <= k < |EncouragingOf(items).titles| ==>
      EncouragingOf(items).titles[k] == Filter(items, IsPositive)[k].title
  {
  }

  /** The priority paragraph quotes at most three recommendations, none empty, each from a
   *  critical or a warning insight. */
  lemma PrioritiesSpec(items: seq<Item>)
    ensures var recs := PrioritiesOf(items).recommendations;
      && |recs| <= 3
      && forall k :: 0 <= k < |recs| ==>
           recs[k] != "" && exists i :: i in items && Urgent(i) && i.recommendation == recs[k]
  {
    var both := Filter(items, IsCritical) + Filter(items, IsWarning);
    var chosen := Take(PriorityItems(items), 3);
    var recs := PrioritiesOf(items).recommendations;
    assert recs == Recommendations(chosen);
    forall k | 0 <= k < |recs|
      ensures recs[k] != "" && exists i :: i in items && Urgent(i) && i.recommendation == recs[k]
    {
      var it := chosen[k];
      assert it in PriorityItems(items);
      assert HasRecommendation(it) && it in both;
      assert recs[k] == it.recommendation;
      assert it in items && Urgent(it);
    }
  }

  function ParagraphText(p: Paragraph): string
  {
    match p
    case Opening(total, cats) =>
      "The analysis identified " + Text.NatToString(total) + " key insight(s) across "
      + Text.NatToString(cats) + " categories."
    case CriticalAttention(titles) =>
      "\U{26A0}\U{FE0F} Critical attention needed: " + Text.Join("; ", titles)
      + ". These issues require immediate administrative action."
    case Concern(titles) =>
      "Areas of concern: " + Text.Join("; ", titles) + ". These should be addressed within this term."
    case Encouraging(titles) => "Encouraging developments: " + Text.Join("; ", titles) + "."
    case Priorities(recs) => "Priority recommendations: " + Text.Join(" ", recs)
  }

  function ParagraphTexts(ps: seq<Paragraph>): (r: seq<string>)
    ensures |r| == |ps|
  {
    seq(|ps|, k requires 0 <= k < |ps| => ParagraphText(ps[k]))
  }

  const NO_INSIGHTS: string := "No significant insights were generated from the available data."

  /** `generate_executive_summary`: the paragraphs separated by blank lines. */
  function ExecutiveSummary(items: seq<Item>): string
  {
    if items == [] then NO_INSIGHTS else Text.Join("\n\n", ParagraphTexts(Paragraphs(items)))
  }

  lemma JoinHead(sep: string, parts: seq<string>)
    requires parts != []
    ensures Text.StartsWith(Text.Join(sep, parts), parts[0])
  {
    if |parts| > 1 {
      assert (parts[0] + sep + Text.Join(sep, parts[1..]))[..|parts[0]|] == parts[0];
    }
  }

  /** Without insights the summary is the fixed notice; otherwise it opens with the count of
   *  insights and categories. */
  lemma ExecutiveSummarySpec(items: seq<Item>)
    ensures items == [] ==> ExecutiveSummary(items) == NO_INSIGHTS
    ensures items != [] ==> Text.StartsWith(ExecutiveSummary(items), ParagraphText(OpeningOf(items)))
  {
    if items != [] {
      var ps := Paragraphs(items);
      JoinHead("\n\n", ParagraphTexts(ps));
    }
  }
}
