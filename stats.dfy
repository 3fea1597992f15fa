/** The descriptive statistics of the analytics engine: the JSON-safe number coercions, the school
 *  overview (pass/fail partition, score histogram, top and bottom lists, class and term means),
 *  the per-subject statistics with the selection of correlation pairs, and the student profile. */
module Stats {
  import opened Wrappers
  import opened Text
  import opened Seqs
  import opened Numeric
  import opened Frames
  import opened Grading

  // ---------------------------------------------------------------------------------------------
  // Number coercion

  /** `_safe_float` of a computed number: NaN or infinity (None here) stays missing, any other value
   *  is rounded to two decimal places. */
  function SafeFloat(v: Option<real>): (r: Option<real>)
    ensures r.Some? <==> v.Some?
  {
    if v.Some? then Some(Round(v.value, 2)) else None
  }

  /** Rounding keeps a value within integral bounds, so a percentage stays a percentage. */
  lemma SafeFloatWithin(v: real, lo: int, hi: int)
    requires lo as real <= v <= hi as real
    ensures var r := SafeFloat(Some(v)); r.Some? && lo as real <= r.value <= hi as real
  {
    RoundWithin(v, 2, lo, hi);
  }

  /** A float as numpy holds it. */
  datatype Float = Finite(value: real) | NaN | Infinite(negative: bool)

  /** The values `_sanitize` walks; a dict keeps its key order. Numpy booleans and integers are the
   *  same values as Python's here. */
  datatype Json =
    | JNull
    | JBool(b: bool)
    | JInt(i: int)
    | JFloat(x: Float)
    | JStr(s: string)
    | JList(items: seq<Json>)
    | JDict(entries: seq<(string, Json)>)

  /** No NaN or infinity anywhere inside. */
  predicate JsonSafe(j: Json)
  {
    match j
    case JFloat(x) => x.Finite?
    case JList(items) => forall i :: 0 <= i < |items| ==> JsonSafe(items[i])
    case JDict(entries) => forall i :: 0 <= i < |entries| ==> JsonSafe(entries[i].1)
    case _ => true
  }

  /** `_sanitize`: NaN and infinity become None, recursively through lists and dicts, which keep
   *  their length and keys. */
  function Sanitize(j: Json): (r: Json)
    ensures JsonSafe(r)
    ensures j.JFloat? ==> r == (if j.x.Finite? then j else JNull)
    ensures j.JList? ==> r.JList? && |r.items| == |j.items|
    ensures j.JDict? ==>
      (r.JDict? && |r.entries| == |j.entries| && forall i :: 0 <= i < |j.entries| ==> r.entries[i].0 == j.entries[i].0)
    ensures !j.JFloat? && !j.JList? && !j.JDict? ==> r == j
  {
    match j
    case JFloat(x) => if x.Finite? then j else JNull
    case JList(items) => JList(seq(|items|, i requires 0 <= i < |items| => Sanitize(items[i])))
    case JDict(entries) => JDict(seq(|entries|, i requires 0 <= i < |entries| => (entries[i].0, Sanitize(entries[i].1))))
    case _ => j
  }

  /** A value that is already JSON-safe passes through unchanged. */
  lemma {:induction false} SanitizeSafe(j: Json)
    requires JsonSafe(j)
    ensures Sanitize(j) == j
  {
    match j
    case JList(items) =>
      forall i | 0 <= i < |items| ensures Sanitize(items[i]) == items[i] {
        SanitizeSafe(items[i]);
      }
      assert Sanitize(j).items == items;
    case JDict(entries) =>
      forall i | 0 <= i < |entries| ensures Sanitize(entries[i].1) == entries[i].1 {
        SanitizeSafe(entries[i].1);
      }
      assert Sanitize(j).entries == entries;
    case _ =>
  }

  /** Sanitising twice is sanitising once. */
  lemma SanitizeIdempotent(j: Json)
    ensures Sanitize(Sanitize(j)) == Sanitize(j)
  {
    SanitizeSafe(Sanitize(j));
  }

  // ---------------------------------------------------------------------------------------------
  // Column aliases and the percentage column

  const SCORE_ALIASES: seq<string> := ["score", "marks", "mark", "total", "points"]
  const MAX_SCORE_ALIASES: seq<string> := ["max_score", "max_marks", "out_of", "maximum"]
  const SUBJECT_ALIASES: seq<string> := ["subject"]
  const CLASS_ALIASES: seq<string> := ["class", "grade", "form", "stream"]
  const TERM_ALIASES: seq<string> := ["term", "semester"]
  const STUDENT_ALIASES: seq<string> := ["student_id", "name", "student_name"]
  const PROFILE_CLASS_ALIASES: seq<string> := ["class", "grade", "form"]
  const NAME_ALIASES: seq<string> := ["name", "student_name", "full_name"]
  const INFO_FIELDS: seq<string> := ["gender", "class", "school", "region"]

  /** `_ensure_percentage` with the analytics engines' score and max-score aliases. */
  function Prepared(df: Frame): (r: Frame)
    ensures |r.rows| == |df.rows|
  {
    EnsurePercentage(df, SCORE_ALIASES, MAX_SCORE_ALIASES)
  }

  /** `nunique()`: the number of distinct present values of a column. */
  function NUnique(rows: seq<Row>, col: string): nat
  {
    |PresentUnique(rows, col)|
  }

  // ---------------------------------------------------------------------------------------------
  // Pass/fail counts

  /** `(pct >= t).sum()`. */
  function CountAtLeast(xs: seq<real>, t: real): (r: nat)
    ensures r <= |xs|
  {
    if xs == [] then 0 else CountAtLeast(xs[..|xs| - 1], t) + (if xs[|xs| - 1] >= t then 1 else 0)
  }

  /** `(pct < t).sum()`. */
  function CountBelow(xs: seq<real>, t: real): (r: nat)
    ensures r <= |xs|
  {
    if xs == [] then 0 else CountBelow(xs[..|xs| - 1], t) + (if xs[|xs| - 1] < t then 1 else 0)
  }

  /** Every value is counted as passing or as failing, never both. */
  lemma {:induction false} PassFailPartition(xs: seq<real>, t: real)
    ensures CountAtLeast(xs, t) + CountBelow(xs, t) == |xs|
  {
    if xs != [] {
      PassFailPartition(xs[..|xs| - 1], t);
    }
  }

  /** A count as a percentage of a total, rounded to two places; 0 for an empty total. */
  function Rate(n: nat, total: nat): real
  {
    if total == 0 then 0.0 else Round(n as real / total as real * 100.0, 2)
  }

  lemma RateWithin(n: nat, total: nat)
    requires n <= total
    ensures 0.0 <= Rate(n, total) <= 100.0
  {
    if total > 0 {
      var q := n as real / total as real;
      assert 0.0 <= q <= 1.0;
      RoundWithin(q * 100.0, 2, 0, 100);
    }
  }

  // ---------------------------------------------------------------------------------------------
  // The score histogram

  const BIN_EDGES: seq<int> := [0, 20, 30, 40, 50, 60, 70, 80, 90, 100]

  /** Bin `b` of `np.histogram`: half-open from its edge to the next, except the last, which also
   *  takes 100. */
  predicate InBin(x: real, b: nat)
    requires b < 9
  {
    BIN_EDGES[b] as real <= x && (x < BIN_EDGES[b + 1] as real || (b == 8 && x == 100.0))
  }

  predicate InRange(x: real) { 0.0 <= x <= 100.0 }

  /** The bin a value falls in; none outside [0, 100]. */
  function BinOf(x: real): (r: Option<nat>)
    ensures r.Some? ==> r.value < 9 && InBin(x, r.value)
    ensures r.None? <==> !InRange(x)
  {
    if x < 0.0 || x > 100.0 then None
    else if x < 20.0 then Some(0)
    else if x < 30.0 then Some(1)
    else if x < 40.0 then Some(2)
    else if x < 50.0 then Some(3)
    else if x < 60.0 then Some(4)
    else if x < 70.0 then Some(5)
    else if x < 80.0 then Some(6)
    else if x < 90.0 then Some(7)
    else Some(8)
  }

  /** The bins do not overlap: a value lies in no bin other than its own. */
  lemma BinsDisjoint(x: real, b: nat)
    requires b < 9 && InBin(x, b)
    ensures BinOf(x) == Some(b)
  {
  }

  /** `"{lo}-{hi}"` for each bin. */
  function BinLabel(b: nat): string
    requires b < 9
  {
    NatToString(BIN_EDGES[b]) + "-" + NatToString(BIN_EDGES[b + 1])
  }

  /** The counts of `np.histogram(pct, bins=BIN_EDGES)`. */
  function Histogram(xs: seq<real>): (r: seq<nat>)
    ensures |r| == 9
  {
    if xs == [] then Zeros(9)
    else
      var h := Histogram(xs[..|xs| - 1]);
      match BinOf(xs[|xs| - 1])
      case None => h
      case Some(b) => h[b := h[b] + 1]
  }

  /** The number of values in bin `b`. */
  function CountInBin(xs: seq<real>, b: nat): nat
    requires b < 9
  {
    if xs == [] then 0 else CountInBin(xs[..|xs| - 1], b) + (if InBin(xs[|xs| - 1], b) then 1 else 0)
  }

  function TotalNat(s: seq<nat>): nat
  {
    if s == [] then 0 else TotalNat(s[..|s| - 1]) + s[|s| - 1]
  }

  function Zeros(n: nat): (r: seq<nat>)
    ensures |r| == n
  {
    seq(n, i => 0)
  }

  lemma {:induction false} TotalZeros(n: nat)
    ensures TotalNat(Zeros(n)) == 0
  {
    if n > 0 {
      TotalZeros(n - 1);
      assert Zeros(n)[..n - 1] == Zeros(n - 1);
    }
  }

  lemma {:induction false} TotalIncrement(s: seq<nat>, b: int)
    requires 0 <= b < |s|
    ensures TotalNat(s[b := s[b] + 1]) == TotalNat(s) + 1
  {
    var t := s[b := s[b] + 1];
    if b < |s| - 1 {
      TotalIncrement(s[..|s| - 1], b);
      assert t[..|s| - 1] == s[..|s| - 1][b := s[b] + 1];
    } else {
      assert t[..|s| - 1] == s[..|s| - 1];
    }
  }

  /** Each count is the number of values in its bin. */
  lemma {:induction false} HistogramCounts(xs: seq<real>, b: nat)
    requires b < 9
    ensures Histogram(xs)[b] == CountInBin(xs, b)
  {
    if xs != [] {
      HistogramCounts(xs[..|xs| - 1], b);
      var x := xs[|xs| - 1];
      if InBin(x, b) {
        BinsDisjoint(x, b);
      }
    }
  }

  /** The counts add up to the number of values within [0, 100]; the histogram drops the rest. */
  lemma {:induction false} HistogramTotal(xs: seq<real>)
    ensures TotalNat(Histogram(xs)) == CountWhere(xs, InRange)
  {
    if xs != [] {
      var p := xs[..|xs| - 1];
      HistogramTotal(p);
      var x := xs[|xs| - 1];
      var b := BinOf(x);
      assert CountWhere(xs, InRange) == CountWhere(p, InRange) + (if InRange(x) then 1 else 0);
      var h := Histogram(p);
      assert p == xs[..|xs| - 1];
      if b.Some? {
        assert Histogram(xs) == h[b.value := h[b.value] + 1];
        TotalIncrement(h, b.value);
      } else {
        assert Histogram(xs) == h;
      }
    } else {
      TotalZeros(9);
    }
  }

  // ---------------------------------------------------------------------------------------------
  // Group means and their ranking

  /** A group key with the mean percentage of its rows. */
  datatype Ranked = Ranked(key: Cell, mean: Option<real>)

  /** `df[df[col] == key]["percentage"].mean()`. */
  function GroupMean(rows: seq<Row>, col: string, key: Cell): Option<real>
  {
    Mean(Pcts(RowsWhere(rows, col, key)))
  }

  /** `groupby(col)["percentage"].mean()`: one entry per present key, in ascending key order. */
  function GroupMeans(rows: seq<Row>, col: string): (r: seq<Ranked>)
    ensures |r| == |GroupKeys(rows, col)|
  {
    var keys := GroupKeys(rows, col);
    seq(|keys|, i requires 0 <= i < |keys| => Ranked(keys[i], GroupMean(rows, col, keys[i])))
  }

  /** The order of `sort_values(ascending=False)`: larger means first, missing means last. */
  predicate MeanDescLe(a: Ranked, b: Ranked)
  {
    b.mean.None? || (a.mean.Some? && a.mean.value >= b.mean.value)
  }

  lemma MeanDescTotalPreorder()
    ensures TotalPreorder(MeanDescLe)
  {
  }

  /** A descending ranking of group means. */
  function RankDesc(xs: seq<Ranked>): seq<Ranked>
  {
    SortBy(xs, MeanDescLe)
  }

  /** The ranking is in descending order of mean and holds every group once. */
  lemma RankDescSpec(xs: seq<Ranked>)
    ensures SortedBy(RankDesc(xs), MeanDescLe)
    ensures multiset(RankDesc(xs)) == multiset(xs)
  {
    MeanDescTotalPreorder();
    SortBySorted(xs, MeanDescLe);
    SortByPerm(xs, MeanDescLe);
  }

  /** The means as they are reported, through `_safe_float`. */
  function Rounded(xs: seq<Ranked>): (r: seq<Ranked>)
    ensures |r| == |xs|
  {
    seq(|xs|, i requires 0 <= i < |xs| => Ranked(xs[i].key, SafeFloat(xs[i].mean)))
  }

  // ---------------------------------------------------------------------------------------------
  // The school overview

  datatype Overview = Overview(
    totalStudents: nat,
    totalSubjects: nat,
    totalClasses: nat,
    totalTerms: nat,
    totalRecords: nat,
    overallMean: Option<real>,
    overallStd: Option<real>,
    passRate: real,
    failRate: real,
    passCount: nat,
    failCount: nat,
    distribution: Option<seq<nat>>,
    topStudents: Option<seq<Ranked>>,
    bottomStudents: Option<seq<Ranked>>,
    topSubjects: Option<seq<Ranked>>,
    bottomSubjects: Option<seq<Ranked>>,
    classAverages: Option<seq<Ranked>>,
    termTrends: Option<seq<(string, Option<real>)>>)

  /** The number of distinct values of an optional column, 0 without one. */
  function CountOf(rows: seq<Row>, col: Option<string>): nat
  {
    if col.Some? then NUnique(rows, col.value) else 0
  }

  /** The five highest and the five lowest of a descending ranking, when the column exists. */
  function TopOf(rows: seq<Row>, col: Option<string>): Option<seq<Ranked>>
  {
    if col.Some? then Some(Rounded(Take(RankDesc(GroupMeans(rows, col.value)), 5))) else None
  }

  function BottomOf(rows: seq<Row>, col: Option<string>): Option<seq<Ranked>>
  {
    if col.Some? then Some(Rounded(TakeLast(RankDesc(GroupMeans(rows, col.value)), 5))) else None
  }

  /** `term_means.get(label)`: the mean of the group whose key is the text `term`; a key that is
   *  not text (a number, say) is never found by its rendering. */
  function TermLabelMean(groups: seq<Ranked>, term: string): Option<real>
  {
    if groups == [] then None
    else if groups[0].key == Str(term) then groups[0].mean
    else TermLabelMean(groups[1..], term)
  }

  /** `str(key)` of each group. */
  function KeyLabels(groups: seq<Ranked>): (r: seq<string>)
    ensures |r| == |groups|
  {
    seq(|groups|, i requires 0 <= i < |groups| => CellString(groups[i].key))
  }

  function TrendLabels(trends: seq<(string, Option<real>)>): (r: seq<string>)
    ensures |r| == |trends|
  {
    seq(|trends|, i requires 0 <= i < |trends| => trends[i].0)
  }

  /** The term means in calendar order of their labels. */
  function TermTrends(rows: seq<Row>, termCol: string): (r: seq<(string, Option<real>)>)
  {
    var groups := GroupMeans(rows, termCol);
    var labels := SortTerms(KeyLabels(groups));
    seq(|labels|, i requires 0 <= i < |labels| => (labels[i], SafeFloat(TermLabelMean(groups, labels[i]))))
  }

  /** The percentages the overview is computed over. */
  function OverviewPcts(df: Frame): seq<real>
  {
    Pcts(Prepared(df).rows)
  }

  /** `compute_overview`. */
  function ComputeOverview(df: Frame, passMark: int, disp: Dispersion): Overview
    requires Lawful(disp)
  {
    var f := Prepared(df);
    var subjectCol := FindCol(f.columns, SUBJECT_ALIASES);
    var classCol := FindCol(f.columns, CLASS_ALIASES);
    var termCol := FindCol(f.columns, TERM_ALIASES);
    var studentCol := FindCol(f.columns, STUDENT_ALIASES);
    var pct := Pcts(f.rows);
    var t := passMark as real;
    Overview(
      totalStudents := if studentCol.Some? then NUnique(f.rows, studentCol.value) else |f.rows|,
      totalSubjects := CountOf(f.rows, subjectCol),
      totalClasses := CountOf(f.rows, classCol),
      totalTerms := CountOf(f.rows, termCol),
      totalRecords := |f.rows|,
      overallMean := SafeFloat(Mean(pct)),
      overallStd := SafeFloat(SampleStd(pct, disp)),
      passRate := Rate(CountAtLeast(pct, t), |pct|),
      failRate := Rate(CountBelow(pct, t), |pct|),
      passCount := CountAtLeast(pct, t),
      failCount := CountBelow(pct, t),
      distribution := if |pct| > 0 then Some(Histogram(pct)) else None,
      topStudents := TopOf(f.rows, studentCol),
      bottomStudents := BottomOf(f.rows, studentCol),
      topSubjects := TopOf(f.rows, subjectCol),
      bottomSubjects := BottomOf(f.rows, subjectCol),
      classAverages := if classCol.Some? then Some(Rounded(RankDesc(GroupMeans(f.rows, classCol.value)))) else None,
      termTrends := if termCol.Some? then Some(TermTrends(f.rows, termCol.value)) else None)
  }

  /** Pass and fail partition the present percentages; both rates are percentages, and 0 when
   *  there is no percentage at all. */
  lemma OverviewCounts(df: Frame, passMark: int, disp: Dispersion)
    requires Lawful(disp)
    ensures var o := ComputeOverview(df, passMark, disp);
      var pct := OverviewPcts(df);
      && o.totalRecords == |df.rows|
      && o.passCount + o.failCount == |pct|
      && o.passCount == CountAtLeast(pct, passMark as real)
      && (|pct| == 0 ==> o.passRate == 0.0 && o.failRate == 0.0)
      && 0.0 <= o.passRate <= 100.0 && 0.0 <= o.failRate <= 100.0
  {
    var pct := OverviewPcts(df);
    var t := passMark as real;
    PassFailPartition(pct, t);
    RateWithin(CountAtLeast(pct, t), |pct|);
    RateWithin(CountBelow(pct, t), |pct|);
  }

  /** The histogram is reported exactly when some percentage is present; its nine counts are the
   *  bin counts and add up to the percentages within [0, 100]. */
  lemma OverviewDistribution(df: Frame, passMark: int, disp: Dispersion)
    requires Lawful(disp)
    ensures var o := ComputeOverview(df, passMark, disp);
      var pct := OverviewPcts(df);
      && (o.distribution.Some? <==> |pct| > 0)
      && (o.distribution.Some? ==>
            && |o.distribution.value| == 9
            && TotalNat(o.distribution.value) == CountWhere(pct, InRange)
            && forall b :: 0 <= b < 9 ==> o.distribution.value[b] == CountInBin(pct, b))
  {
    var pct := OverviewPcts(df);
    HistogramTotal(pct);
    forall b | 0 <= b < 9 ensures Histogram(pct)[b] == CountInBin(pct, b) {
      HistogramCounts(pct, b);
    }
  }

  /** The top list holds at most five groups, the highest means of a descending ranking of all
   *  groups, and the bottom list the lowest five of the same ranking. */
  lemma TopAndBottom(rows: seq<Row>, col: string)
    ensures var ranked := RankDesc(GroupMeans(rows, col));
      var top, bottom := TopOf(rows, Some(col)).value, BottomOf(rows, Some(col)).value;
      && SortedBy(ranked, MeanDescLe)
      && multiset(ranked) == multiset(GroupMeans(rows, col))
      && |top| == |bottom| == (if |ranked| < 5 then |ranked| else 5)
      && top == Rounded(ranked[..|top|])
      && bottom == Rounded(ranked[|ranked| - |bottom|..])
  {
    RankDescSpec(GroupMeans(rows, col));
  }

  /** The term trends follow the calendar order of the term labels and list every term group. */
  lemma TermTrendsOrdered(rows: seq<Row>, termCol: string)
    ensures var r := TermTrends(rows, termCol);
      var groups := GroupMeans(rows, termCol);
      && |r| == |groups|
      && (forall i, j :: 0 <= i < j < |r| ==> TermKey(r[i].0) <= TermKey(r[j].0))
      && multiset(TrendLabels(r)) == multiset(KeyLabels(groups))
  {
    var groups := GroupMeans(rows, termCol);
    var labels := KeyLabels(groups);
    SortTermsSpec(labels, "");
    var r := TermTrends(rows, termCol);
    assert TrendLabels(r) == SortTerms(labels);
  }

  // ---------------------------------------------------------------------------------------------
  // Per-subject statistics

  /** The smallest of a non-empty sample (`min()`). */
  function MinOf(xs: seq<real>): (r: real)
    requires |xs| > 0
    ensures r in xs && forall i :: 0 <= i < |xs| ==> r <= xs[i]
  {
    if |xs| == 1 then xs[0] else MinR(MinOf(xs[..|xs| - 1]), xs[|xs| - 1])
  }

  /** The largest of a non-empty sample (`max()`). */
  function MaxOf(xs: seq<real>): (r: real)
    requires |xs| > 0
    ensures r in xs && forall i :: 0 <= i < |xs| ==> xs[i] <= r
  {
    if |xs| == 1 then xs[0] else MaxR(MaxOf(xs[..|xs| - 1]), xs[|xs| - 1])
  }

  /** One subject's entry. The median and the quartiles are not part of this model. */
  datatype SubjectStat = SubjectStat(
    subject: string,
    mean: Option<real>,
    std: Option<real>,
    min: real,
    max: real,
    passRate: real,
    failRate: real,
    passCount: nat,
    failCount: nat,
    count: nat)

  function StatOf(key: Cell, pct: seq<real>, passMark: int, disp: Dispersion): SubjectStat
    requires |pct| > 0 && Lawful(disp)
  {
    var t := passMark as real;
    SubjectStat(CellString(key), SafeFloat(Mean(pct)), SafeFloat(SampleStd(pct, disp)),
      Round(MinOf(pct), 2), Round(MaxOf(pct), 2),
      Rate(CountAtLeast(pct, t), |pct|), Rate(CountBelow(pct, t), |pct|),
      CountAtLeast(pct, t), CountBelow(pct, t), |pct|)
  }

  /** The percentages of one group. */
  function GroupPcts(rows: seq<Row>, col: string, key: Cell): seq<real>
  {
    Pcts(RowsWhere(rows, col, key))
  }

  /** `df.groupby(col)` with each group's present percentages, in ascending key order. */
  function Groups(rows: seq<Row>, col: string): (g: seq<(Cell, seq<real>)>)
  {
    var keys := GroupKeys(rows, col);
    seq(|keys|, i requires 0 <= i < |keys| => (keys[i], GroupPcts(rows, col, keys[i])))
  }

  /** The entries of the subject loop over `groups`, skipping subjects without a valid score. */
  function SubjectEntries(groups: seq<(Cell, seq<real>)>, passMark: int, disp: Dispersion): seq<SubjectStat>
    requires Lawful(disp)
  {
    if groups == [] then []
    else SubjectEntries(groups[..|groups| - 1], passMark, disp) + EntryOf(groups[|groups| - 1], passMark, disp)
  }

  /** The entry of one subject group: none when it holds no valid score. */
  function EntryOf(group: (Cell, seq<real>), passMark: int, disp: Dispersion): seq<SubjectStat>
    requires Lawful(disp)
  {
    if |group.1| > 0 then [StatOf(group.0, group.1, passMark, disp)] else []
  }

  /** The loop of `compute_subject_stats` over the subject groups. */
  method CollectSubjects(groups: seq<(Cell, seq<real>)>, passMark: int, disp: Dispersion) returns (data: seq<SubjectStat>)
    requires Lawful(disp)
    ensures data == SubjectEntries(groups, passMark, disp)
  {
    data := [];
    var k := 0;
    while k < |groups|
      invariant 0 <= k <= |groups|
      invariant data == SubjectEntries(groups[..k], passMark, disp)
    {
      assert groups[..k + 1][..k] == groups[..k];
      data := data + EntryOf(groups[k], passMark, disp);
      k := k + 1;
    }
    assert groups[..k] == groups;
  }

  /** Every entry has a valid score, and every group with one has its entry. */
  lemma {:induction false} SubjectEntriesSpec(groups: seq<(Cell, seq<real>)>, passMark: int, disp: Dispersion)
    requires Lawful(disp)
    ensures forall x :: x in SubjectEntries(groups, passMark, disp) ==> x.count > 0
    ensures forall g :: g in groups && |g.1| > 0 ==> StatOf(g.0, g.1, passMark, disp) in SubjectEntries(groups, passMark, disp)
  {
    if groups != [] {
      var init := groups[..|groups| - 1];
      var last := groups[|groups| - 1];
      SubjectEntriesSpec(init, passMark, disp);
      var prev := SubjectEntries(init, passMark, disp);
      var e := EntryOf(last, passMark, disp);
      assert SubjectEntries(groups, passMark, disp) == prev + e;
      forall g | g in groups && |g.1| > 0 ensures StatOf(g.0, g.1, passMark, disp) in prev + e {
        if g == last {
          assert e == [StatOf(g.0, g.1, passMark, disp)];
        } else {
          var i :| 0 <= i < |groups| && groups[i] == g;
          assert init[i] == g;
        }
      }
    }
  }

  /** `x["mean"] or 0`. */
  function MeanOrZero(s: SubjectStat): real
  {
    if s.mean.Some? then s.mean.value else 0.0
  }

  /** The order of `sort(key=mean or 0, reverse=True)`: larger means first. */
  predicate SubjectLe(a: SubjectStat, b: SubjectStat)
  {
    MeanOrZero(a) >= MeanOrZero(b)
  }

  lemma SubjectLeTotalPreorder()
    ensures TotalPreorder(SubjectLe)
  {
  }

  /** Python's sort is stable: the sorted list is in descending order of mean (missing counting as
   *  0), holds the same entries, and keeps subjects of equal mean in ascending key order. */
  lemma SubjectOrder(data: seq<SubjectStat>, x: SubjectStat)
    ensures var r := SortBy(data, SubjectLe);
      && SortedBy(r, SubjectLe)
      && multiset(r) == multiset(data)
      && Tied(r, x, SubjectLe) == Tied(data, x, SubjectLe)
  {
    SubjectLeTotalPreorder();
    SortBySorted(data, SubjectLe);
    SortByPerm(data, SubjectLe);
    SortByStable(data, x, SubjectLe);
  }

  // ---------------------------------------------------------------------------------------------
  // Correlation pairs

  /** A pair of subjects with the statistic and p-value of the correlation test. */
  datatype CorrPair = CorrPair(subjectA: string, subjectB: string, r: Option<real>, p: Option<real>)

  /** `scipy.stats.pearsonr` as an input: the statistic and the p-value (None for NaN) of the
   *  paired samples. */
  type Pearson = seq<(real, real)> -> (Option<real>, Option<real>)

  /** A cell of the pivot table: the mean percentage of one student in one subject. */
  function PivotCell(rows: seq<Row>, studentCol: string, subjectCol: string, student: Cell, subject: Cell): Option<real>
  {
    Mean(Pcts(RowsWhere(RowsWhere(rows, studentCol, student), subjectCol, subject)))
  }

  /** Some student has a mean in the subject, so the subject is a pivot column. */
  predicate HasPivotValue(rows: seq<Row>, studentCol: string, subjectCol: string, students: seq<Cell>, subject: Cell)
  {
    exists i :: 0 <= i < |students| && PivotCell(rows, studentCol, subjectCol, students[i], subject).Some?
  }

  /** The pivot columns: the subject keys, ascending, without the ones where every cell is NaN. */
  function PivotColumns(rows: seq<Row>, studentCol: string, subjectCol: string, students: seq<Cell>, subjects: seq<Cell>): (r: seq<Cell>)
    ensures forall i :: 0 <= i < |r| ==> r[i] in subjects
  {
    if subjects == [] then []
    else
      var last := subjects[|subjects| - 1];
      PivotColumns(rows, studentCol, subjectCol, students, subjects[..|subjects| - 1])
      + (if HasPivotValue(rows, studentCol, subjectCol, students, last) then [last] else [])
  }

  /** A subject is a pivot column exactly when it is a subject key with some student mean. */
  lemma {:induction false} PivotColumnsSpec(rows: seq<Row>, studentCol: string, subjectCol: string, students: seq<Cell>, subjects: seq<Cell>)
    ensures forall c :: c in PivotColumns(rows, studentCol, subjectCol, students, subjects) <==>
      c in subjects && HasPivotValue(rows, studentCol, subjectCol, students, c)
  {
    if subjects != [] {
      var init := subjects[..|subjects| - 1];
      PivotColumnsSpec(rows, studentCol, subjectCol, students, init);
      assert subjects == init + [subjects[|subjects| - 1]];
    }
  }

  /** The pivot table: one row of means per student (ascending student keys), one column per
   *  pivot column. */
  datatype Pivot = Pivot(cols: seq<Cell>, cells: seq<seq<Option<real>>>)

  function PivotOf(rows: seq<Row>, studentCol: string, subjectCol: string): (t: Pivot)
  {
    var students := GroupKeys(rows, studentCol);
    var cols := PivotColumns(rows, studentCol, subjectCol, students, GroupKeys(rows, subjectCol));
    Pivot(cols, seq(|students|, s requires 0 <= s < |students| =>
      seq(|cols|, c requires 0 <= c < |cols| => PivotCell(rows, studentCol, subjectCol, students[s], cols[c]))))
  }

  /** The cell in column `c` of a pivot row, NaN when out of range. */
  function At(row: seq<Option<real>>, c: int): Option<real>
  {
    if 0 <= c < |row| then row[c] else None
  }

  /** `pivot[[a, b]].dropna()`: the pairs of means of the students with a mean in both columns. */
  function Paired(cells: seq<seq<Option<real>>>, a: int, b: int): (r: seq<(real, real)>)
    ensures |r| <= |cells|
  {
    if cells == [] then []
    else
      var row := cells[|cells| - 1];
      Paired(cells[..|cells| - 1], a, b) + (if At(row, a).Some? && At(row, b).Some? then [(At(row, a).value, At(row, b).value)] else [])
  }

  /** The paired means of columns `i` and `j`. */
  function PairedAt(t: Pivot, i: int, j: int): seq<(real, real)>
  {
    Paired(t.cells, i, j)
  }

  /** The pair `(i, j)` is emitted only when at least three students have both subjects. */
  predicate Supported(t: Pivot, i: int, j: int)
    requires 0 <= i < |t.cols| && 0 <= j < |t.cols|
  {
    |PairedAt(t, i, j)| >= 3
  }

  function PairOf(t: Pivot, i: int, j: int, pearson: Pearson): CorrPair
    requires 0 <= i < |t.cols| && 0 <= j < |t.cols|
  {
    var rp := pearson(PairedAt(t, i, j));
    CorrPair(CellString(t.cols[i]), CellString(t.cols[j]), SafeFloat(rp.0), SafeFloat(rp.1))
  }

  /** The pairs `(i, j')` for `j <= j' < |cols|`, in order. */
  function RowPairs(t: Pivot, i: int, j: int, pearson: Pearson): seq<CorrPair>
    requires 0 <= i < |t.cols| && 0 <= j
    decreases |t.cols| - j
  {
    if j >= |t.cols| then [] else PairCell(t, i, j, pearson) + RowPairs(t, i, j + 1, pearson)
  }

  /** The pair `(i, j)` when it is supported, else nothing. */
  function PairCell(t: Pivot, i: int, j: int, pearson: Pearson): seq<CorrPair>
    requires 0 <= i < |t.cols| && 0 <= j < |t.cols|
  {
    if Supported(t, i, j) then [PairOf(t, i, j, pearson)] else []
  }

  /** The pairs `(i', j)` with `i <= i' < j`, row by row. */
  function PairsFrom(t: Pivot, i: int, pearson: Pearson): seq<CorrPair>
    requires 0 <= i
    decreases |t.cols| - i
  {
    if i >= |t.cols| then [] else RowPairs(t, i, i + 1, pearson) + PairsFrom(t, i + 1, pearson)
  }

  /** The nested loops of `compute_subject_stats` over the pivot columns. */
  method CorrelationPairs(t: Pivot, pearson: Pearson) returns (pairs: seq<CorrPair>)
    ensures pairs == PairsFrom(t, 0, pearson)
  {
    pairs := [];
    var i := 0;
    while i < |t.cols|
      invariant 0 <= i <= |t.cols|
      invariant pairs + PairsFrom(t, i, pearson) == PairsFrom(t, 0, pearson)
    {
      var row := CorrelationRow(t, i, pearson);
      assert PairsFrom(t, i, pearson) == row + PairsFrom(t, i + 1, pearson);
      assert pairs + (row + PairsFrom(t, i + 1, pearson)) == (pairs + row) + PairsFrom(t, i + 1, pearson);
      pairs := pairs + row;
      i := i + 1;
    }
  }

  /** The inner loop of `compute_subject_stats`: column `i` against every later column. */
  method CorrelationRow(t: Pivot, i: int, pearson: Pearson) returns (row: seq<CorrPair>)
    requires 0 <= i < |t.cols|
    ensures row == RowPairs(t, i, i + 1, pearson)
  {
    row := [];
    var j := i + 1;
    while j < |t.cols|
      invariant i + 1 <= j
      invariant row + RowPairs(t, i, j, pearson) == RowPairs(t, i, i + 1, pearson)
      decreases |t.cols| - j
    {
      RowPairsStep(t, i, j, pearson, row);
      row := row + PairCell(t, i, j, pearson);
      j := j + 1;
    }
    assert RowPairs(t, i, j, pearson) == [];
  }

  /** One step of the inner loop: the row so far absorbs the cell at column `j`. */
  lemma RowPairsStep(t: Pivot, i: int, j: int, pearson: Pearson, row: seq<CorrPair>)
    requires 0 <= i < |t.cols| && 0 <= j < |t.cols|
    ensures row + RowPairs(t, i, j, pearson) == (row + PairCell(t, i, j, pearson)) + RowPairs(t, i, j + 1, pearson)
  {
    var cell := PairCell(t, i, j, pearson);
    var rest := RowPairs(t, i, j + 1, pearson);
    assert RowPairs(t, i, j, pearson) == cell + rest;
    assert row + (cell + rest) == (row + cell) + rest;
  }

  /** `x` is the pair of column `i` with a supported column `j' >= j`. */
  predicate InRow(t: Pivot, i: int, j: int, x: CorrPair, pearson: Pearson)
    requires 0 <= i < |t.cols|
  {
    exists j' :: 0 <= j' && j <= j' < |t.cols| && Supported(t, i, j') && x == PairOf(t, i, j', pearson)
  }

  /** `x` is the pair of supported columns `a < b` with `a >= i`. */
  predicate InPairs(t: Pivot, i: int, x: CorrPair, pearson: Pearson)
  {
    exists a, b :: 0 <= i <= a < b < |t.cols| && Supported(t, a, b) && x == PairOf(t, a, b, pearson)
  }

  /** Every pair in a row is a supported pair of columns to the right of `i`, and every supported
   *  one is there. */
  lemma {:induction false} RowPairsSpec(t: Pivot, i: int, j: int, pearson: Pearson)
    requires 0 <= i < |t.cols| && 0 <= j
    ensures forall x :: x in RowPairs(t, i, j, pearson) ==> InRow(t, i, j, x, pearson)
    ensures forall j' :: j <= j' < |t.cols| && Supported(t, i, j') ==> PairOf(t, i, j', pearson) in RowPairs(t, i, j, pearson)
    decreases |t.cols| - j
  {
    if j < |t.cols| {
      RowPairsSpec(t, i, j + 1, pearson);
      var head := PairCell(t, i, j, pearson);
      var rest := RowPairs(t, i, j + 1, pearson);
      assert RowPairs(t, i, j, pearson) == head + rest;
      forall x | x in head + rest ensures InRow(t, i, j, x, pearson) {
        if x in head {
          assert Supported(t, i, j) && x == PairOf(t, i, j, pearson);
        } else {
          assert InRow(t, i, j + 1, x, pearson);
          var j' :| j + 1 <= j' < |t.cols| && Supported(t, i, j') && x == PairOf(t, i, j', pearson);
        }
      }
    } else {
      assert RowPairs(t, i, j, pearson) == [];
    }
  }

  /** The pairs `compute_subject_stats` emits are exactly the supported pairs `a < b` of pivot
   *  columns, with the subject of column `a` first. */
  lemma {:induction false} PairsFromSpec(t: Pivot, i: int, pearson: Pearson)
    requires 0 <= i
    ensures forall x :: x in PairsFrom(t, i, pearson) ==> InPairs(t, i, x, pearson)
    ensures forall a, b :: i <= a < b < |t.cols| && Supported(t, a, b) ==> PairOf(t, a, b, pearson) in PairsFrom(t, i, pearson)
    decreases |t.cols| - i
  {
    if i < |t.cols| {
      PairsFromSpec(t, i + 1, pearson);
      RowPairsSpec(t, i, i + 1, pearson);
      var row := RowPairs(t, i, i + 1, pearson);
      var rest := PairsFrom(t, i + 1, pearson);
      assert PairsFrom(t, i, pearson) == row + rest;
      forall x | x in row + rest ensures InPairs(t, i, x, pearson) {
        if x in row {
          assert InRow(t, i, i + 1, x, pearson);
          var j' :| i + 1 <= j' < |t.cols| && Supported(t, i, j') && x == PairOf(t, i, j', pearson);
        } else {
          assert InPairs(t, i + 1, x, pearson);
          var a, b :| 0 <= i + 1 <= a < b < |t.cols| && Supported(t, a, b) && x == PairOf(t, a, b, pearson);
        }
      }
      forall a, b | i <= a < b < |t.cols| && Supported(t, a, b) ensures PairOf(t, a, b, pearson) in row + rest {
        if a == i {
          assert PairOf(t, a, b, pearson) in row;
        } else {
          assert PairOf(t, a, b, pearson) in rest;
        }
      }
    } else {
      assert PairsFrom(t, i, pearson) == [];
    }
  }

  /** What `compute_subject_stats` returns. The correlation matrix itself is not part of this
   *  model; `pairs` is None where the source returns an empty dict. */
  datatype SubjectStats = SubjectStats(subjects: seq<SubjectStat>, pairs: Option<seq<CorrPair>>)

  function SubjectStatsOf(df: Frame, passMark: int, disp: Dispersion, pearson: Pearson): SubjectStats
    requires Lawful(disp)
  {
    var f := Prepared(df);
    match FindCol(f.columns, SUBJECT_ALIASES)
    case None => SubjectStats([], None)
    case Some(subjectCol) =>
      var data := SortBy(SubjectEntries(Groups(f.rows, subjectCol), passMark, disp), SubjectLe);
      var studentCol := FindCol(f.columns, STUDENT_ALIASES);
      if studentCol.None? then SubjectStats(data, None)
      else
        var t := PivotOf(f.rows, studentCol.value, subjectCol);
        if |t.cols| >= 2 then SubjectStats(data, Some(PairsFrom(t, 0, pearson))) else SubjectStats(data, None)
  }

  /** `compute_subject_stats`. */
  method ComputeSubjectStats(df: Frame, passMark: int, disp: Dispersion, pearson: Pearson) returns (r: SubjectStats)
    requires Lawful(disp)
    ensures r == SubjectStatsOf(df, passMark, disp, pearson)
  {
    var f := Prepared(df);
    var subjectCol := FindCol(f.columns, SUBJECT_ALIASES);
    if subjectCol.None? {
      return SubjectStats([], None);
    }
    var data := CollectSubjects(Groups(f.rows, subjectCol.value), passMark, disp);
    data := SortBy(data, SubjectLe);
    var studentCol := FindCol(f.columns, STUDENT_ALIASES);
    var pairs: Option<seq<CorrPair>> := None;
    if studentCol.Some? {
      var t := PivotOf(f.rows, studentCol.value, subjectCol.value);
      if |t.cols| >= 2 {
        var ps := CorrelationPairs(t, pearson);
        pairs := Some(ps);
      }
    }
    r := SubjectStats(data, pairs);
  }

  /** The sorted subject list holds the loop's entries, in descending order of mean, each with a
   *  valid score. */
  lemma SortedSubjects(groups: seq<(Cell, seq<real>)>, passMark: int, disp: Dispersion)
    requires Lawful(disp)
    ensures var entries := SubjectEntries(groups, passMark, disp);
      var r := SortBy(entries, SubjectLe);
      && multiset(r) == multiset(entries)
      && SortedBy(r, SubjectLe)
      && (forall x :: x in r ==> x.count > 0)
      && (forall g :: g in groups && |g.1| > 0 ==> StatOf(g.0, g.1, passMark, disp) in r)
  {
    var entries := SubjectEntries(groups, passMark, disp);
    SubjectEntriesSpec(groups, passMark, disp);
    SubjectLeTotalPreorder();
    SortBySorted(entries, SubjectLe);
    SortByPerm(entries, SubjectLe);
    var r := SortBy(entries, SubjectLe);
    forall x | x in r ensures x in entries {
      assert x in multiset(r);
    }
    forall x | x in entries ensures x in r {
      assert x in multiset(entries);
    }
  }

  /** Without a subject column the result is empty; with one, the subject list is the sorted
   *  loop result over the ascending subject keys, and correlation pairs are present exactly when
   *  there is a student column and at least two pivot columns. */
  lemma SubjectStatsSpec(df: Frame, passMark: int, disp: Dispersion, pearson: Pearson)
    requires Lawful(disp)
    ensures var r := SubjectStatsOf(df, passMark, disp, pearson);
      var f := Prepared(df);
      var subjectCol := FindCol(f.columns, SUBJECT_ALIASES);
      var studentCol := FindCol(f.columns, STUDENT_ALIASES);
      && (subjectCol.None? ==> r == SubjectStats([], None))
      && (subjectCol.Some? ==>
            && r.subjects == SortBy(SubjectEntries(Groups(f.rows, subjectCol.value), passMark, disp), SubjectLe)
            && (r.pairs.Some? <==> studentCol.Some? && |PivotOf(f.rows, studentCol.value, subjectCol.value).cols| >= 2)
            && (r.pairs.Some? ==> r.pairs.value == PairsFrom(PivotOf(f.rows, studentCol.value, subjectCol.value), 0, pearson)))
  {
  }

  // ---------------------------------------------------------------------------------------------
  // One student's profile

  /** The rows whose `col` cell renders as `s` (`df[df[col].astype(str) == s]`). */
  function RowsRendering(rows: seq<Row>, col: string, s: string): (r: seq<Row>)
    ensures |r| <= |rows|
  {
    if rows == [] then []
    else RowsRendering(rows[..|rows| - 1], col, s) + (if CellString(Get(rows[|rows| - 1], col)) == s then [rows[|rows| - 1]] else [])
  }

  /** The selection is empty exactly when no row's cell renders as `s`. */
  lemma {:induction false} RowsRenderingEmpty(rows: seq<Row>, col: string, s: string)
    ensures RowsRendering(rows, col, s) == [] <==> forall i :: 0 <= i < |rows| ==> CellString(Get(rows[i], col)) != s
  {
    if rows != [] {
      var init := rows[..|rows| - 1];
      RowsRenderingEmpty(init, col, s);
      if CellString(Get(rows[|rows| - 1], col)) != s {
        forall i | 0 <= i < |rows| - 1 ensures rows[i] == init[i] { }
      }
    }
  }

  /** A score line of `all_scores`. */
  datatype ScoreRecord = ScoreRecord(percentage: Option<real>, subject: Option<string>, term: Option<string>, passFail: string)

  /** A line of `term_trends`: the term mean and the mean of each subject in it. */
  datatype TermRow = TermRow(term: string, mean: Option<real>, subjects: seq<(string, Option<real>)>)

  /** What `compute_student_profile` returns when the student is found. `info` holds the
   *  gender/class/school/region fields that exist; an `Option` field is None where the source
   *  leaves the key out of the dict, and `classRank` is `Some(None)` where it stores None. */
  datatype Profile = Profile(
    studentId: string,
    name: string,
    info: seq<(string, string)>,
    overallMean: Option<real>,
    passCount: nat,
    failCount: nat,
    subjectScores: Option<seq<(string, Option<real>)>>,
    termTrends: Option<seq<TermRow>>,
    classRank: Option<Option<nat>>,
    classTotal: Option<nat>,
    schoolRank: Option<nat>,
    schoolTotal: nat,
    allScores: seq<ScoreRecord>)

  /** Group means as reported: the key as a string and the mean through `_safe_float`. */
  function ScoreLabels(groups: seq<Ranked>): (r: seq<(string, Option<real>)>)
    ensures |r| == |groups|
  {
    seq(|groups|, i requires 0 <= i < |groups| => (CellString(groups[i].key), SafeFloat(groups[i].mean)))
  }

  /** The basic info fields among `names` that have a column, with the first row's value. */
  function InfoOf(columns: seq<string>, first: Row, names: seq<string>): (r: seq<(string, string)>)
    ensures |r| <= |names|
  {
    if names == [] then []
    else
      var c := FindCol(columns, [names[0]]);
      (if c.Some? then [(names[0], CellString(Get(first, c.value)))] else []) + InfoOf(columns, first, names[1..])
  }

  /** The per-term lines of one student's rows. */
  function TermRows(rows: seq<Row>, termCol: string, subjectCol: string): (r: seq<TermRow>)
    ensures |r| == |GroupKeys(rows, termCol)|
  {
    var keys := GroupKeys(rows, termCol);
    seq(|keys|, i requires 0 <= i < |keys| =>
      TermRow(CellString(keys[i]), SafeFloat(GroupMean(rows, termCol, keys[i])),
        ScoreLabels(GroupMeans(RowsWhere(rows, termCol, keys[i]), subjectCol))))
  }

  /** The keys of a ranking, best first. */
  function RankKeys(ranking: seq<Ranked>): (r: seq<Cell>)
    ensures |r| == |ranking|
  {
    seq(|ranking|, i requires 0 <= i < |ranking| => ranking[i].key)
  }

  /** `rank_list.index(student_id) + 1 if student_id in rank_list else None`; the id is a string,
   *  so it never equals a numeric key. */
  function RankOf(ranking: seq<Ranked>, id: string): Option<nat>
  {
    var keys := RankKeys(ranking);
    if Str(id) in keys then Some(IndexOf(keys, Str(id)) + 1) else None
  }

  /** `"Pass" if rec["percentage"] and rec["percentage"] >= pass_mark else "Fail"`. */
  function PassFail(p: Option<real>, passMark: int): string
  {
    if p.Some? && p.value != 0.0 && p.value >= passMark as real then "Pass" else "Fail"
  }

  function RecordOf(row: Row, subjectCol: Option<string>, termCol: Option<string>, passMark: int): ScoreRecord
  {
    var p := SafeFloat(Pct(row));
    ScoreRecord(p,
      if subjectCol.Some? then Some(CellString(Get(row, subjectCol.value))) else None,
      if termCol.Some? then Some(CellString(Get(row, termCol.value))) else None,
      PassFail(p, passMark))
  }

  function Records(rows: seq<Row>, subjectCol: Option<string>, termCol: Option<string>, passMark: int): (r: seq<ScoreRecord>)
    ensures |r| == |rows|
  {
    seq(|rows|, i requires 0 <= i < |rows| => RecordOf(rows[i], subjectCol, termCol, passMark))
  }

  /** The ranking of the class of `first`: the student means of the rows whose class renders as
   *  the student's class. */
  function ClassRanking(rows: seq<Row>, studentCol: string, classCol: string, first: Row): seq<Ranked>
  {
    RankDesc(GroupMeans(RowsRendering(rows, classCol, CellString(Get(first, classCol))), studentCol))
  }

  /** The ranking of every student of the school. */
  function SchoolRanking(rows: seq<Row>, studentCol: string): seq<Ranked>
  {
    RankDesc(GroupMeans(rows, studentCol))
  }

  /** `compute_student_profile`: None without a student column or without a matching row. */
  function StudentProfile(df: Frame, studentId: string, passMark: int): Option<Profile>
  {
    var f := Prepared(df);
    var studentCol := FindCol(f.columns, STUDENT_ALIASES);
    if studentCol.None? then None
    else
      var mine := RowsRendering(f.rows, studentCol.value, studentId);
      if mine == [] then None
      else
        var first := mine[0];
        var subjectCol := FindCol(f.columns, SUBJECT_ALIASES);
        var termCol := FindCol(f.columns, TERM_ALIASES);
        var classCol := FindCol(f.columns, PROFILE_CLASS_ALIASES);
        var nameCol := FindCol(f.columns, NAME_ALIASES);
        var pct := Pcts(mine);
        var t := passMark as real;
        var classRanking := if classCol.Some? then ClassRanking(f.rows, studentCol.value, classCol.value, first) else [];
        var schoolRanking := SchoolRanking(f.rows, studentCol.value);
        Some(Profile(
          studentId,
          if nameCol.Some? then CellString(Get(first, nameCol.value)) else studentId,
          InfoOf(f.columns, first, INFO_FIELDS),
          SafeFloat(Mean(pct)),
          CountAtLeast(pct, t),
          CountBelow(pct, t),
          if subjectCol.Some? then Some(ScoreLabels(GroupMeans(mine, subjectCol.value))) else None,
          if termCol.Some? && subjectCol.Some? then Some(TermRows(mine, termCol.value, subjectCol.value)) else None,
          if classCol.Some? then Some(RankOf(classRanking, studentId)) else None,
          if classCol.Some? then Some(|classRanking|) else None,
          RankOf(schoolRanking, studentId),
          |schoolRanking|,
          Records(mine, subjectCol, termCol, passMark)))
  }

  /** A profile exists exactly when there is a student column and some row's student cell renders
   *  as the requested id. */
  lemma ProfileFound(df: Frame, studentId: string, passMark: int)
    ensures var f := Prepared(df);
      var studentCol := FindCol(f.columns, STUDENT_ALIASES);
      StudentProfile(df, studentId, passMark).Some? <==>
        studentCol.Some? && exists i :: 0 <= i < |f.rows| && CellString(Get(f.rows[i], studentCol.value)) == studentId
  {
    var f := Prepared(df);
    var studentCol := FindCol(f.columns, STUDENT_ALIASES);
    if studentCol.Some? {
      RowsRenderingEmpty(f.rows, studentCol.value, studentId);
    }
  }

  /** A rank is the position of the id in the ranking, counted from 1: everyone before it has a
   *  mean at least as good, and the rank is None exactly when the id is not a key. */
  lemma RankOfSpec(xs: seq<Ranked>, id: string)
    ensures var ranking := RankDesc(xs);
      var r := RankOf(ranking, id);
      && (r.None? <==> forall i :: 0 <= i < |xs| ==> xs[i].key != Str(id))
      && (r.Some? ==>
            && 1 <= r.value <= |ranking| == |xs|
            && ranking[r.value - 1].key == Str(id)
            && (forall j :: 0 <= j < r.value - 1 ==> ranking[j].key != Str(id) && MeanDescLe(ranking[j], ranking[r.value - 1])))
  {
    var ranking := RankDesc(xs);
    RankDescSpec(xs);
    var keys := RankKeys(ranking);
    assert |ranking| == |xs| by {
      assert |multiset(ranking)| == |multiset(xs)|;
    }
    if Str(id) in keys {
      var k := IndexOf(keys, Str(id));
      assert ranking[k].key == Str(id);
      assert ranking[k] in multiset(xs);
      forall j | 0 <= j < k ensures ranking[j].key != Str(id) && MeanDescLe(ranking[j], ranking[k]) {
        assert keys[j] != Str(id);
      }
    } else {
      forall i | 0 <= i < |xs| ensures xs[i].key != Str(id) {
        assert xs[i] in multiset(ranking);
        var k :| 0 <= k < |ranking| && ranking[k] == xs[i];
        assert keys[k] == xs[i].key;
      }
    }
  }

  /** A score line passes exactly when its rounded percentage is present, non-zero and at least
   *  the pass mark; so a score of 0 is a "Fail" even when the pass mark is 0, while the pass
   *  count of the same profile counts it as a pass. */
  lemma PassFailSpec(p: Option<real>, passMark: int)
    ensures PassFail(p, passMark) == "Pass" <==> p.Some? && p.value != 0.0 && p.value >= passMark as real
    ensures PassFail(p, passMark) == "Pass" || PassFail(p, passMark) == "Fail"
  {
  }

  lemma ZeroScoreFailsAtZeroMark()
    ensures PassFail(Some(0.0), 0) == "Fail"
    ensures CountAtLeast([0.0], 0.0) == 1
  {
  }

  /** The counts of a profile split its valid scores, and there is one score line per matching
   *  row, in row order. */
  lemma ProfileCounts(df: Frame, studentId: string, passMark: int)
    ensures var p := StudentProfile(df, studentId, passMark);
      var f := Prepared(df);
      p.Some? ==>
        var mine := RowsRendering(f.rows, FindCol(f.columns, STUDENT_ALIASES).value, studentId);
        && p.value.passCount + p.value.failCount == |Pcts(mine)|
        && |p.value.allScores| == |mine| > 0
        && p.value.schoolTotal == |GroupKeys(f.rows, FindCol(f.columns, STUDENT_ALIASES).value)|
  {
    var p := StudentProfile(df, studentId, passMark);
    var f := Prepared(df);
    if p.Some? {
      var studentCol := FindCol(f.columns, STUDENT_ALIASES).value;
      var mine := RowsRendering(f.rows, studentCol, studentId);
      PassFailPartition(Pcts(mine), passMark as real);
      var xs := GroupMeans(f.rows, studentCol);
      RankDescSpec(xs);
      assert |multiset(RankDesc(xs))| == |multiset(xs)|;
    }
  }
}
