/** The decision logic of the report builder: the percentage column it derives, the split of a
 *  class label into level and stream, the three score bands and the places that colour by them,
 *  the teacher's remark, the best and weakest subject, and the capped subject table. */
module ReportBuilder {
  import opened Wrappers
  import opened Seqs
  import opened Numeric
  import opened Frames
  import opened Text

  // ---------------------------------------------------------------------------------------------
  // `_ensure_percentage`

  const SCORE_COLS: seq<string> := ["score", "marks", "mark", "total_score"]
  const MAX_COLS: seq<string> := ["max_score", "max_marks", "out_of", "maximum"]

  /** `(s / m * 100).round(2)` on the coerced cells, or the coerced score when there is no max
   *  column. A missing operand or a zero max gives no value. */
  function ReportPct(score: Cell, max: Option<Cell>): Option<real>
  {
    var s := ToNumeric(score);
    match max
    case None => s
    case Some(mc) =>
      var m := ToNumeric(mc);
      if s.Some? && m.Some? && m.value != 0.0 then Some(Round(s.value / m.value * 100.0, 2)) else None
  }

  /** `_ensure_percentage` of the report builder: an existing percentage column is kept as it is;
   *  otherwise one is derived when a score column is found. */
  function EnsurePct(f: Frame): Frame
  {
    if "percentage" in f.columns then f
    else
      match FindCol(f.columns, SCORE_COLS)
      case None => f
      case Some(sc) =>
        var mc := FindCol(f.columns, MAX_COLS);
        Frame(f.columns + ["percentage"], seq(|f.rows|, i requires 0 <= i < |f.rows| =>
          f.rows[i]["percentage" := CellOf(ReportPct(Get(f.rows[i], sc), if mc.Some? then Some(Get(f.rows[i], mc.value)) else None))]))
  }

  /** Every row keeps its other cells, and its percentage is the existing one or the derived one;
   *  a second call changes nothing. */
  lemma EnsurePctSpec(f: Frame, i: int, col: string)
    requires 0 <= i < |f.rows|
    ensures var r := EnsurePct(f);
      var sc := FindCol(f.columns, SCORE_COLS);
      var mc := FindCol(f.columns, MAX_COLS);
      && |r.rows| == |f.rows|
      && EnsurePct(r) == r
      && ("percentage" in f.columns || sc.None? ==> r == f)
      && ("percentage" !in f.columns && sc.Some? ==>
            && "percentage" in r.columns
            && Pct(r.rows[i]) == ReportPct(Get(f.rows[i], sc.value), if mc.Some? then Some(Get(f.rows[i], mc.value)) else None))
      && (col != "percentage" ==> Get(r.rows[i], col) == Get(f.rows[i], col))
  {
  }

  /** Where a positive max is found, the report builder derives the same percentage as the
   *  analytics engines; with a zero max they part ways. */
  lemma ReportPctAgrees(score: Cell, max: Cell)
    ensures ToNumeric(max).Some? && ToNumeric(max).value > 0.0 ==> ReportPct(score, Some(max)) == DerivedPct(score, Some(max))
    ensures ToNumeric(score).Some? && ToNumeric(max) == Some(0.0) ==>
      ReportPct(score, Some(max)) == None && DerivedPct(score, Some(max)) == ToNumeric(score)
  {
  }

  // ---------------------------------------------------------------------------------------------
  // `str.split()`

  /** Where the last word of `s` starts: `s` ends with a non-blank character. */
  function WordStart(s: string): (i: nat)
    requires s != [] && !IsSpace(s[|s| - 1])
    ensures i < |s| && (forall k :: i <= k < |s| ==> !IsSpace(s[k])) && (i > 0 ==> IsSpace(s[i - 1]))
    decreases |s|
  {
    if |s| == 1 || IsSpace(s[|s| - 2]) then |s| - 1 else WordStart(s[..|s| - 1])
  }

  /** `str.split()` with no argument: the maximal runs of non-blank characters. */
  function Words(s: string): (r: seq<string>)
    decreases |s|
  {
    if s == [] then []
    else if IsSpace(s[|s| - 1]) then Words(s[..|s| - 1])
    else Words(s[..WordStart(s)]) + [s[WordStart(s)..]]
  }

  predicate IsWord(w: string) { w != [] && forall k :: 0 <= k < |w| ==> !IsSpace(w[k]) }

  predicate Blank(s: string) { forall k :: 0 <= k < |s| ==> IsSpace(s[k]) }

  /** The start of the last word is fixed by its two properties. */
  lemma WordStartUnique(s: string, j: nat)
    requires s != [] && !IsSpace(s[|s| - 1])
    requires j < |s| && (forall k :: j <= k < |s| ==> !IsSpace(s[k])) && (j > 0 ==> IsSpace(s[j - 1]))
    ensures WordStart(s) == j
  {
  }

  /** A word after a blank (or at the start) is split off as the last word. */
  lemma AppendWord(p: string, w: string)
    requires IsWord(w) && (p == [] || IsSpace(p[|p| - 1]))
    ensures Words(p + w) == Words(p) + [w]
  {
    var s := p + w;
    WordStartUnique(s, |p|);
    assert s[..|p|] == p && s[|p|..] == w;
  }

  /** Trailing blanks split off nothing. */
  lemma {:induction false} AppendBlank(p: string, b: string)
    requires Blank(b)
    ensures Words(p + b) == Words(p)
    decreases |b|
  {
    if b != [] {
      var s := p + b;
      assert s[..|s| - 1] == p + b[..|b| - 1];
      AppendBlank(p, b[..|b| - 1]);
    } else {
      assert p + b == p;
    }
  }

  /** Leading blanks split off nothing. */
  lemma {:induction false} PrependBlank(b: string, t: string)
    requires Blank(b)
    ensures Words(b + t) == Words(t)
    decreases |t|
  {
    if t == [] {
      assert b + t == b;
      BlankWords(b);
    } else if IsSpace(t[|t| - 1]) {
      PrependBlank(b, t[..|t| - 1]);
      PrependBlankSpace(b, t);
    } else {
      PrependBlank(b, t[..WordStart(t)]);
      PrependBlankWord(b, t);
    }
  }

  lemma PrependBlankSpace(b: string, t: string)
    requires t != [] && IsSpace(t[|t| - 1])
    requires Words(b + t[..|t| - 1]) == Words(t[..|t| - 1])
    ensures Words(b + t) == Words(t)
  {
    var s := b + t;
    assert s[..|s| - 1] == b + t[..|t| - 1];
    WordsSpace(s);
    WordsSpace(t);
  }

  lemma WordsSpace(s: string)
    requires s != [] && IsSpace(s[|s| - 1])
    ensures Words(s) == Words(s[..|s| - 1])
  {
  }

  lemma PrependBlankWord(b: string, t: string)
    requires Blank(b) && t != [] && !IsSpace(t[|t| - 1])
    requires Words(b + t[..WordStart(t)]) == Words(t[..WordStart(t)])
    ensures Words(b + t) == Words(t)
  {
    var s := b + t;
    var i := WordStart(t);
    forall k | |b| + i <= k < |s| ensures !IsSpace(s[k]) {
      assert s[k] == t[k - |b|];
    }
    if |b| + i > 0 {
      if i > 0 { assert s[|b| + i - 1] == t[i - 1]; }
      else { assert s[|b| - 1] == b[|b| - 1]; }
    }
    WordStartUnique(s, |b| + i);
    assert s[..|b| + i] == b + t[..i];
    assert s[|b| + i..] == t[i..];
    WordsLast(s);
    WordsLast(t);
  }

  lemma WordsLast(s: string)
    requires s != [] && !IsSpace(s[|s| - 1])
    ensures Words(s) == Words(s[..WordStart(s)]) + [s[WordStart(s)..]]
  {
  }

  lemma {:induction false} BlankWords(b: string)
    requires Blank(b)
    ensures Words(b) == []
    decreases |b|
  {
    if b != [] {
      BlankWords(b[..|b| - 1]);
    }
  }

  /** Trimming does not change the words. */
  lemma TrimWords(s: string)
    ensures Words(Trim(s)) == Words(s)
  {
    var l := StripLeft(s, WHITESPACE);
    var r := StripRight(l, WHITESPACE);
    StripLeftSpec(s, WHITESPACE);
    StripRightSpec(l, WHITESPACE);
    var a, b := s[..|s| - |l|], l[|r|..];
    forall k | 0 <= k < |a| ensures IsSpace(a[k]) { WhitespaceIsSpace(a[k]); }
    forall k | 0 <= k < |b| ensures IsSpace(b[k]) { WhitespaceIsSpace(b[k]); }
    assert s == a + (r + b);
    PrependBlank(a, r + b);
    AppendBlank(r, b);
  }

  lemma {:induction false} JoinSnoc(sep: string, ws: seq<string>, w: string)
    requires ws != []
    ensures Join(sep, ws + [w]) == Join(sep, ws) + sep + w
  {
    if |ws| > 1 {
      assert (ws + [w])[1..] == ws[1..] + [w];
      JoinSnoc(sep, ws[1..], w);
    }
  }

  /** Joining words with single blanks and splitting again gives the words back. */
  lemma {:induction false} WordsOfJoin(ws: seq<string>)
    requires forall k :: 0 <= k < |ws| ==> IsWord(ws[k])
    ensures Words(Join(" ", ws)) == ws
  {
    if ws != [] {
      var p, w := ws[..|ws| - 1], ws[|ws| - 1];
      assert ws == p + [w];
      assert IsWord(w);
      if p == [] {
        AppendWord("", w);
        assert "" + w == w;
        assert Join(" ", ws) == w;
      } else {
        assert forall k :: 0 <= k < |p| ==> IsWord(p[k]) by {
          forall k | 0 <= k < |p| ensures IsWord(p[k]) { assert p[k] == ws[k]; }
        }
        var j := Join(" ", p);
        JoinSnoc(" ", p, w);
        assert Join(" ", ws) == j + " " + w;
        WordsOfJoin(p);
        assert Blank(" ");
        AppendBlank(j, " ");
        assert Words(j + " ") == p;
        AppendWord(j + " ", w);
      }
    }
  }

  lemma {:induction false} WordsAreWords(s: string)
    ensures forall k :: 0 <= k < |Words(s)| ==> IsWord(Words(s)[k])
    decreases |s|
  {
    if s != [] {
      if IsSpace(s[|s| - 1]) {
        WordsAreWords(s[..|s| - 1]);
      } else {
        WordsAreWords(s[..WordStart(s)]);
      }
    }
  }

  // ---------------------------------------------------------------------------------------------
  // `_split_class_stream`

  predicate IsAlphaWord(w: string) { w != [] && forall k :: 0 <= k < |w| ==> IsAlpha(w[k]) }

  predicate HasDigit(w: string) { exists k :: 0 <= k < |w| && IsDigit(w[k]) }

  /** `str(class_value or "N/A").strip()`. */
  function ClassLabel(v: Option<string>): string
  {
    Trim(if v.None? || v.value == "" then "N/A" else v.value)
  }

  /** `_split_class_stream`: the class level and the stream of a class label. */
  function SplitClassStream(v: Option<string>): (string, string)
  {
    SplitLabel(ClassLabel(v))
  }

  /** The split of the stripped label. */
  function SplitLabel(cls: string): (string, string)
  {
    var parts := Words(cls);
    if cls == "N/A" then ("N/A", "N/A")
    else if parts == [] then (cls, "N/A")
    else SplitParts(cls, parts[..|parts| - 1], parts[|parts| - 1])
  }

  /** The three rules, tried in order, on a label whose words are `init` and then `tail`. */
  function SplitParts(cls: string, init: seq<string>, tail: string): (string, string)
  {
    if |tail| >= 2 && IsAlpha(tail[|tail| - 1]) && HasDigit(tail) then
      (Trim(Join(" ", init) + " " + tail[..|tail| - 1]), Upper(tail[|tail| - 1..]))
    else if |init| >= 1 && IsAlphaWord(tail) && |tail| <= 2 then
      (Trim(Join(" ", init)), Upper(tail))
    else if |cls| >= 2 && IsAlpha(cls[|cls| - 1]) && HasDigit(cls) then
      (Trim(cls[..|cls| - 1]), Upper(cls[|cls| - 1..]))
    else (cls, "N/A")
  }

  lemma UpperLetters(w: string)
    requires IsAlphaWord(w)
    ensures forall k :: 0 <= k < |Upper(w)| ==> IsUpper(Upper(w)[k])
  {
  }

  /** When a label does not end in a blank, its last word is its suffix. */
  lemma LastWord(cls: string)
    requires cls != [] && !IsSpace(cls[|cls| - 1])
    ensures var parts := Words(cls);
      && parts != []
      && cls[WordStart(cls)..] == parts[|parts| - 1]
      && Words(cls[..WordStart(cls)]) == parts[..|parts| - 1]
      && IsWord(parts[|parts| - 1])
  {
    var parts := Words(cls);
    assert parts == Words(cls[..WordStart(cls)]) + [cls[WordStart(cls)..]];
  }

  /** The level of a label whose last word loses its final letter. */
  lemma LevelLosingLetter(p: string, tail: string)
    requires IsWord(tail) && |tail| >= 2 && (p == [] || IsSpace(p[|p| - 1]))
    ensures Words(Trim(Join(" ", Words(p)) + " " + tail[..|tail| - 1])) == Words((p + tail)[..|p + tail| - 1])
  {
    var t := tail[..|tail| - 1];
    assert IsWord(t);
    assert (p + tail)[..|p + tail| - 1] == p + t;
    AppendWord(p, t);
    WordsAreWords(p);
    JoinThenWord(Words(p), t);
  }

  /** Joining words and adding one more after a blank gives the words back, with the new one. */
  lemma JoinThenWord(init: seq<string>, t: string)
    requires IsWord(t) && forall k :: 0 <= k < |init| ==> IsWord(init[k])
    ensures Words(Trim(Join(" ", init) + " " + t)) == init + [t]
  {
    var j := Join(" ", init);
    TrimWords(j + " " + t);
    assert Blank(" ");
    AppendBlank(j, " ");
    WordsOfJoin(init);
    assert Words(j + " ") == init;
    AppendWord(j + " ", t);
  }

  /** The level of a label that loses its whole last word. */
  lemma LevelLosingWord(p: string)
    ensures Words(Trim(Join(" ", Words(p)))) == Words(p)
  {
    WordsAreWords(p);
    TrimWords(Join(" ", Words(p)));
    WordsOfJoin(Words(p));
  }

  /** The stream is one or two upper-case letters that upper-case the end of the label. */
  predicate StreamSuffix(cls: string, stream: string)
  {
    && 1 <= |stream| <= 2 && |stream| < |cls|
    && (forall k :: 0 <= k < |stream| ==> IsUpper(stream[k]))
    && stream == Upper(cls[|cls| - |stream|..])
  }

  /** The level is the rest of the label, up to blanks. */
  predicate LevelRest(cls: string, level: string, stream: string)
    requires |stream| <= |cls|
  {
    Words(level) == Words(cls[..|cls| - |stream|])
  }

  /** What a split promises: the stream is "N/A" with the whole label as the level, or a suffix
   *  of the label with the rest of the label as the level. */
  predicate SplitsLabel(cls: string, level: string, stream: string)
  {
    && (stream == "N/A" ==> level == cls)
    && (stream != "N/A" ==> StreamSuffix(cls, stream) && LevelRest(cls, level, stream))
  }

  /** The first rule: a last word with a digit and a final letter loses that letter. */
  lemma LetterTailSplits(p: string, tail: string)
    requires IsWord(tail) && |tail| >= 2 && IsAlpha(tail[|tail| - 1]) && (p == [] || IsSpace(p[|p| - 1]))
    ensures SplitsLabel(p + tail, Trim(Join(" ", Words(p)) + " " + tail[..|tail| - 1]), Upper(tail[|tail| - 1..]))
  {
    LetterTailStream(p, tail);
    LetterTailLevel(p, tail);
  }

  lemma LetterTailStream(p: string, tail: string)
    requires |tail| >= 2 && IsAlpha(tail[|tail| - 1])
    ensures StreamSuffix(p + tail, Upper(tail[|tail| - 1..]))
  {
    var cls := p + tail;
    var c := tail[|tail| - 1];
    assert tail[|tail| - 1..] == [c] == cls[|cls| - 1..];
    UpperLetters([c]);
  }

  lemma LetterTailLevel(p: string, tail: string)
    requires IsWord(tail) && |tail| >= 2 && (p == [] || IsSpace(p[|p| - 1]))
    ensures LevelRest(p + tail, Trim(Join(" ", Words(p)) + " " + tail[..|tail| - 1]), tail[|tail| - 1..])
  {
    LevelLosingLetter(p, tail);
  }

  /** The second rule: a short all-letter last word after another word is the stream. */
  lemma LetterWordSplits(p: string, tail: string)
    requires IsWord(tail) && IsAlphaWord(tail) && |tail| <= 2 && p != [] && IsSpace(p[|p| - 1])
    ensures SplitsLabel(p + tail, Trim(Join(" ", Words(p))), Upper(tail))
  {
    var cls := p + tail;
    assert StreamSuffix(cls, Upper(tail)) by {
      UpperLetters(tail);
      assert cls[|cls| - |tail|..] == tail;
    }
    assert LevelRest(cls, Trim(Join(" ", Words(p))), Upper(tail)) by {
      LevelLosingWord(p);
      assert cls[..|cls| - |tail|] == p;
    }
  }

  /** The third rule: a label with a digit and a final letter loses that letter. */
  lemma LetterEndSplits(cls: string)
    requires |cls| >= 2 && IsAlpha(cls[|cls| - 1])
    ensures SplitsLabel(cls, Trim(cls[..|cls| - 1]), Upper(cls[|cls| - 1..]))
  {
    assert StreamSuffix(cls, Upper(cls[|cls| - 1..])) by {
      UpperLetters(cls[|cls| - 1..]);
    }
    assert LevelRest(cls, Trim(cls[..|cls| - 1]), Upper(cls[|cls| - 1..])) by {
      TrimWords(cls[..|cls| - 1]);
    }
  }

  /** A label that is neither blank nor "N/A" splits as `SplitsLabel` says. */
  lemma SplitLabelSpec(cls: string)
    requires cls != [] && !IsSpace(cls[|cls| - 1]) && cls != "N/A"
    ensures SplitsLabel(cls, SplitLabel(cls).0, SplitLabel(cls).1)
  {
    LastWord(cls);
    var parts := Words(cls);
    var p := cls[..WordStart(cls)];
    assert cls == p + parts[|parts| - 1];
    assert SplitLabel(cls) == SplitParts(cls, Words(p), parts[|parts| - 1]);
    SplitPartsSpec(p, parts[|parts| - 1]);
  }

  /** The label `p + tail`, whose last word is `tail`, splits by the first rule that applies. */
  lemma SplitPartsSpec(p: string, tail: string)
    requires IsWord(tail) && (p == [] || IsSpace(p[|p| - 1]))
    ensures var r := SplitParts(p + tail, Words(p), tail); SplitsLabel(p + tail, r.0, r.1)
  {
    var cls := p + tail;
    if |tail| >= 2 && IsAlpha(tail[|tail| - 1]) && HasDigit(tail) {
      SplitByFirstRule(p, tail);
    } else if |Words(p)| >= 1 && IsAlphaWord(tail) && |tail| <= 2 {
      SplitBySecondRule(p, tail);
    } else {
      SplitByLastRules(p + tail, Words(p), tail);
    }
  }

  lemma SplitByFirstRule(p: string, tail: string)
    requires IsWord(tail) && (p == [] || IsSpace(p[|p| - 1]))
    requires |tail| >= 2 && IsAlpha(tail[|tail| - 1]) && HasDigit(tail)
    ensures var r := SplitParts(p + tail, Words(p), tail); SplitsLabel(p + tail, r.0, r.1)
  {
    LetterTailSplits(p, tail);
  }

  lemma SplitBySecondRule(p: string, tail: string)
    requires IsWord(tail) && (p == [] || IsSpace(p[|p| - 1]))
    requires !(|tail| >= 2 && IsAlpha(tail[|tail| - 1]) && HasDigit(tail))
    requires |Words(p)| >= 1 && IsAlphaWord(tail) && |tail| <= 2
    ensures var r := SplitParts(p + tail, Words(p), tail); SplitsLabel(p + tail, r.0, r.1)
  {
    if p == [] {
      assert false;
    }
    LetterWordSplits(p, tail);
  }

  lemma SplitByLastRules(cls: string, init: seq<string>, tail: string)
    requires !(|tail| >= 2 && IsAlpha(tail[|tail| - 1]) && HasDigit(tail))
    requires !(|init| >= 1 && IsAlphaWord(tail) && |tail| <= 2)
    ensures var r := SplitParts(cls, init, tail); SplitsLabel(cls, r.0, r.1)
  {
    if |cls| >= 2 && IsAlpha(cls[|cls| - 1]) && HasDigit(cls) {
      assert SplitParts(cls, init, tail) == (Trim(cls[..|cls| - 1]), Upper(cls[|cls| - 1..]));
      LetterEndSplits(cls);
    } else {
      assert SplitParts(cls, init, tail) == (cls, "N/A");
      NoSplit(cls);
    }
  }

  /** A label no rule applies to is its own level, with no stream. */
  lemma NoSplit(cls: string)
    ensures SplitsLabel(cls, cls, "N/A")
  {
  }

  /** Every class label splits as `SplitsLabel` says. */
  lemma SplitClassStreamSpec(v: Option<string>)
    ensures SplitsLabel(ClassLabel(v), SplitClassStream(v).0, SplitClassStream(v).1)
  {
    var cls := ClassLabel(v);
    TrimSpec(if v.None? || v.value == "" then "N/A" else v.value);
    if cls == [] {
      BlankWords(cls);
    } else if cls != "N/A" {
      SplitLabelSpec(cls);
    }
  }

  /** `_split_class_stream` of None, "" or "N/A" is ("N/A", "N/A"). */
  lemma SplitNotAvailable(v: Option<string>)
    requires v.None? || v == Some("") || v == Some("N/A")
    ensures SplitClassStream(v) == ("N/A", "N/A")
  {
    TrimNoop("N/A");
  }

  lemma WordsForm()
    ensures Words("Form ") == ["Form"]
  {
    var a, b := "Form", " ";
    assert a == [] + a;
    AppendWord([], a);
    assert "Form " == a + b;
    assert Blank(b);
    AppendBlank(a, b);
  }

  lemma WordsForm2A()
    ensures Words("Form 2A") == ["Form", "2A"]
  {
    var p, w := "Form ", "2A";
    WordsForm();
    assert "Form 2A" == p + w;
    assert IsSpace(p[|p| - 1]);
    AppendWord(p, w);
  }

  /** The example of the source's own documentation. */
  lemma SplitForm2A()
    ensures SplitClassStream(Some("Form 2A")) == ("Form 2", "A")
  {
    assert ClassLabel(Some("Form 2A")) == "Form 2A" by { TrimNoop("Form 2A"); }
    SplitLabelForm2A();
  }

  lemma SplitLabelForm2A()
    ensures SplitLabel("Form 2A") == ("Form 2", "A")
  {
    var cls := "Form 2A";
    var tail := "2A";
    WordsForm2A();
    assert SplitLabel(cls) == SplitParts(cls, ["Form"], tail);
    assert HasDigit(tail) by { assert IsDigit(tail[0]); }
    assert |tail| >= 2 && IsAlpha(tail[|tail| - 1]);
    JoinForm2();
    assert Upper(tail[|tail| - 1..]) == "A";
  }

  lemma JoinForm2()
    ensures Trim(Join(" ", ["Form"]) + " " + "2A"[..1]) == "Form 2"
  {
    assert Join(" ", ["Form"]) + " " + "2A"[..1] == "Form 2";
    TrimNoop("Form 2");
  }

  // ---------------------------------------------------------------------------------------------
  // The score bands

  /** The three bands every coloured place of the reports uses. */
  datatype Band = DoingWell | KeepImproving | NeedsSupport

  /** 70 and above, else at least the pass mark, else below it. */
  function BandOf(score: real, passMark: int): Band
  {
    if score >= 70.0 then DoingWell else if score >= passMark as real then KeepImproving else NeedsSupport
  }

  function BandRank(b: Band): nat
  {
    match b
    case DoingWell => 2
    case KeepImproving => 1
    case NeedsSupport => 0
  }

  /** A higher score never lands in a lower band. */
  lemma BandMonotone(x: real, y: real, passMark: int)
    requires x <= y
    ensures BandRank(BandOf(x, passMark)) <= BandRank(BandOf(y, passMark))
  {
  }

  /** The bands as conditions on the score; the top band does not depend on the pass mark. */
  lemma BandSpec(score: real, passMark: int)
    ensures BandOf(score, passMark) == DoingWell <==> score >= 70.0
    ensures BandOf(score, passMark) == KeepImproving <==> passMark as real <= score < 70.0
    ensures BandOf(score, passMark) == NeedsSupport <==> score < 70.0 && score < passMark as real
  {
  }

  /** `_student_subject_bar_chart`: the bar colour of a score. */
  function ChartColour(v: real, passMark: int): string
  {
    if v >= 70.0 then "#2ecc71" else if v >= passMark as real then "#f39c12" else "#e74c3c"
  }

  /** `_student_subject_bar_chart`: the bar values, a missing score read as 0. */
  function ChartValues(scores: seq<(string, Option<real>)>): (r: seq<real>)
    ensures |r| == |scores|
    ensures forall k :: 0 <= k < |scores| ==> r[k] == if scores[k].1.Some? then scores[k].1.value else 0.0
  {
    seq(|scores|, k requires 0 <= k < |scores| => scores[k].1.GetOr(0.0))
  }

  /** `_color_coded_table`: the background of a row with a score. */
  function RowColour(score: real, passMark: int): string
  {
    if score >= 70.0 then "#d5f5e3" else if score >= passMark as real then "#fef9e7" else "#fadbd8"
  }

  /** The "Meaning" column of the student report's subject table. */
  function Meaning(score: real, passMark: int): string
  {
    if score >= 70.0 then "Doing Well" else if score >= passMark as real then "Keep Improving" else "Needs Support"
  }

  datatype Fill = GreenFill | YellowFill | RedFill

  /** The Excel export: the fill of a data row from its percentage cell; an empty cell or one
   *  `float` cannot read leaves the row unfilled. */
  function ExcelFill(c: Cell, passMark: int): (r: Option<Fill>)
    ensures r.Some? <==> ToNumeric(c).Some?
  {
    match ToNumeric(c)
    case None => None
    case Some(v) => Some(if v >= 70.0 then GreenFill else if v >= passMark as real then YellowFill else RedFill)
  }

  function BandChartColour(b: Band): string
  {
    match b
    case DoingWell => "#2ecc71"
    case KeepImproving => "#f39c12"
    case NeedsSupport => "#e74c3c"
  }

  function BandRowColour(b: Band): string
  {
    match b
    case DoingWell => "#d5f5e3"
    case KeepImproving => "#fef9e7"
    case NeedsSupport => "#fadbd8"
  }

  function BandMeaning(b: Band): string
  {
    match b
    case DoingWell => "Doing Well"
    case KeepImproving => "Keep Improving"
    case NeedsSupport => "Needs Support"
  }

  function BandFill(b: Band): Fill
  {
    match b
    case DoingWell => GreenFill
    case KeepImproving => YellowFill
    case NeedsSupport => RedFill
  }

  /** The four places that colour or label a score each follow the one band rule, in the same
   *  order, and each tells the three bands apart. */
  lemma SitesAgree(v: real, passMark: int)
    ensures ChartColour(v, passMark) == BandChartColour(BandOf(v, passMark))
    ensures RowColour(v, passMark) == BandRowColour(BandOf(v, passMark))
    ensures Meaning(v, passMark) == BandMeaning(BandOf(v, passMark))
    ensures ExcelFill(Num(v), passMark) == Some(BandFill(BandOf(v, passMark)))
    ensures forall a: Band, b: Band :: a != b ==>
      && BandChartColour(a) != BandChartColour(b) && BandRowColour(a) != BandRowColour(b)
      && BandMeaning(a) != BandMeaning(b) && BandFill(a) != BandFill(b)
  {
  }

  // ---------------------------------------------------------------------------------------------
  // `_color_coded_table`

  /** The table commands, their cell ranges and arguments left out: the ten commands every table
   *  starts with, and one background per coloured data row. */
  datatype Style = Base(command: string) | RowBackground(row: nat, colour: string)

  const BASE_STYLES: seq<Style> := [
    Base("BACKGROUND"), Base("TEXTCOLOR"), Base("FONTNAME"), Base("FONTSIZE"), Base("FONTSIZE"),
    Base("ALIGN"), Base("VALIGN"), Base("GRID"), Base("TOPPADDING"), Base("BOTTOMPADDING")]

  /** `float(row[col])`: a short row or a cell `float` cannot read gives no score. */
  function ScoreOfRow(row: seq<Cell>, col: nat): (r: Option<real>)
    ensures col >= |row| ==> r.None?
  {
    if col < |row| then ToNumeric(row[col]) else None
  }

  /** The backgrounds added for the data rows `1 .. n - 1`. */
  function RowStyles(data: seq<seq<Cell>>, col: nat, passMark: int, n: nat): seq<Style>
    requires n <= |data|
  {
    if n <= 1 then []
    else
      RowStyles(data, col, passMark, n - 1) +
      match ScoreOfRow(data[n - 1], col)
      case Some(score) => [RowBackground(n - 1, RowColour(score, passMark))]
      case None => []
  }

  /** The style commands of a colour-coded table. */
  method ColorCodedStyles(data: seq<seq<Cell>>, col: nat, passMark: int) returns (cmds: seq<Style>)
    ensures cmds == BASE_STYLES + RowStyles(data, col, passMark, |data|)
  {
    if |data| <= 1 {
      return BASE_STYLES;
    }
    var rows: seq<Style> := [];
    for rowIdx := 1 to |data|
      invariant rows == RowStyles(data, col, passMark, rowIdx)
    {
      var score := ScoreOfRow(data[rowIdx], col);
      if score.Some? {
        rows := rows + [RowBackground(rowIdx, RowColour(score.value, passMark))];
      }
    }
    cmds := BASE_STYLES + rows;
  }

  /** A background of one of the data rows `1 .. n - 1`. */
  predicate DataRowBackground(st: Style, n: nat) { st.RowBackground? && 1 <= st.row < n }

  /** The row a command is for; the base commands cover the whole table. */
  function RowOf(st: Style): int { if st.RowBackground? then st.row else -1 }

  /** Only row backgrounds are added, for data rows `1 .. n - 1`. */
  lemma {:induction false} RowStylesRows(data: seq<seq<Cell>>, col: nat, passMark: int, n: nat)
    requires n <= |data|
    ensures forall i :: 0 <= i < |RowStyles(data, col, passMark, n)| ==>
      DataRowBackground(RowStyles(data, col, passMark, n)[i], n)
  {
    if n > 1 {
      RowStylesRows(data, col, passMark, n - 1);
      var p := RowStyles(data, col, passMark, n - 1);
      var r := RowStyles(data, col, passMark, n);
      var sc := ScoreOfRow(data[n - 1], col);
      if sc.Some? {
        assert r == p + [RowBackground(n - 1, RowColour(sc.value, passMark))];
      } else {
        assert r == p;
      }
      forall i | 0 <= i < |r| ensures DataRowBackground(r[i], n) {
        if i < |p| {
          assert r[i] == p[i];
        }
      }
    }
  }

  /** A background for row `k` is there exactly when `k` is a data row whose score cell reads as
   *  a number, and its colour is the band colour of that score. */
  lemma {:induction false} RowStylesSpec(data: seq<seq<Cell>>, col: nat, passMark: int, n: nat)
    requires n <= |data|
    ensures forall k: nat, c :: RowBackground(k, c) in RowStyles(data, col, passMark, n) <==>
      1 <= k < n && ScoreOfRow(data[k], col).Some? && c == RowColour(ScoreOfRow(data[k], col).value, passMark)
  {
    if n > 1 {
      RowStylesSpec(data, col, passMark, n - 1);
      RowStylesRows(data, col, passMark, n - 1);
      var p := RowStyles(data, col, passMark, n - 1);
      var r := RowStyles(data, col, passMark, n);
      var sc := ScoreOfRow(data[n - 1], col);
      if sc.Some? {
        var last := RowBackground(n - 1, RowColour(sc.value, passMark));
        assert r == p + [last];
        assert forall st :: st in r <==> st in p || st == last;
      } else {
        assert r == p;
      }
    }
  }

  /** The backgrounds come in row order, one per row. */
  lemma {:induction false} RowStylesOrdered(data: seq<seq<Cell>>, col: nat, passMark: int, n: nat)
    requires n <= |data|
    ensures forall i, j :: 0 <= i < j < |RowStyles(data, col, passMark, n)| ==>
      RowOf(RowStyles(data, col, passMark, n)[i]) < RowOf(RowStyles(data, col, passMark, n)[j])
  {
    if n > 1 {
      RowStylesOrdered(data, col, passMark, n - 1);
      RowStylesRows(data, col, passMark, n - 1);
      var p := RowStyles(data, col, passMark, n - 1);
      var r := RowStyles(data, col, passMark, n);
      var sc := ScoreOfRow(data[n - 1], col);
      if sc.Some? {
        assert r == p + [RowBackground(n - 1, RowColour(sc.value, passMark))];
      } else {
        assert r == p;
      }
      forall i, j | 0 <= i < j < |r| ensures RowOf(r[i]) < RowOf(r[j]) {
        assert r[i] == p[i];
        if j < |p| { assert r[j] == p[j]; }
      }
    }
  }

  // ---------------------------------------------------------------------------------------------
  // The student report's subject table

  /** `_safe_float(score) or 0`: a missing score is read as 0. */
  function ScoreOrZero(score: Option<real>): real { score.GetOr(0.0) }

  /** A number followed by "%", as the student report writes its score cells, does not read as a
   *  number. */
  lemma PercentTextUnparsed(t: string)
    ensures ParseDecimal(t + "%") == None
  {
    var s := t + "%";
    var l := StripLeft(s, WHITESPACE);
    StripLeftSpec(s, WHITESPACE);
    assert s[|s| - 1] !in WHITESPACE;
    assert l != [] && l[|l| - 1] == '%';
    assert Trim(s) == l;
    PercentEndUnsigned(l);
    if l[0] == '-' || l[0] == '+' {
      assert l[1..] != [] && l[1..][|l[1..]| - 1] == '%';
      PercentEndUnsigned(l[1..]);
    }
  }

  lemma PercentEndUnsigned(u: string)
    requires u != [] && u[|u| - 1] == '%'
    ensures ParseUnsigned(u) == None
  {
    var ip := LeadingDigits(u);
    var rest := u[|ip|..];
    assert rest != [] && rest[|rest| - 1] == '%';
    if rest[0] == '.' {
      var fp := LeadingDigits(rest[1..]);
      assert |fp| < |rest| - 1 by {
        assert rest[1..][|rest| - 2] == '%';
      }
      PercentExponent(rest[1 + |fp|..]);
    } else {
      PercentExponent(rest);
    }
  }

  /** No exponent suffix ends in "%". */
  lemma PercentExponent(tail: string)
    requires tail != [] && tail[|tail| - 1] == '%'
    ensures ParseExponent(tail) == None
  {
    if |tail| >= 2 && (tail[0] == 'e' || tail[0] == 'E') {
      var d := if tail[1] == '-' || tail[1] == '+' then tail[2..] else tail[1..];
      if d != [] {
        assert d[|d| - 1] == '%';
      }
    }
  }

  /** The header and the first twelve rows of the subject table, as written: the score cell is
   *  the score rendered with a "%" sign. */
  function SubjectRowsAsWritten(scores: seq<(string, Option<real>)>, passMark: int, show: real -> string): (r: seq<seq<Cell>>)
    ensures |r| == 1 + |Take(scores, 12)|
  {
    var shown := Take(scores, 12);
    [[Str("Subject"), Str("Average Score"), Str("Meaning")]] +
    seq(|shown|, k requires 0 <= k < |shown| =>
      var score := ScoreOrZero(shown[k].1);
      [Str(shown[k].0), Str(show(score) + "%"), Str(Meaning(score, passMark))])
  }

  /** No row whose score cell reads as a number, no background. */
  lemma {:induction false} UnscoredNoStyles(data: seq<seq<Cell>>, col: nat, passMark: int, n: nat)
    requires n <= |data|
    requires forall k :: 1 <= k < n ==> ScoreOfRow(data[k], col).None?
    ensures RowStyles(data, col, passMark, n) == []
  {
    if n > 1 {
      UnscoredNoStyles(data, col, passMark, n - 1);
    }
  }

  /** So `_color_coded_table` colours none of its rows. */
  lemma SubjectTableUncoloured(scores: seq<(string, Option<real>)>, passMark: int, show: real -> string)
    ensures var rows := SubjectRowsAsWritten(scores, passMark, show);
      RowStyles(rows, 1, passMark, |rows|) == []
  {
    var rows := SubjectRowsAsWritten(scores, passMark, show);
    forall k | 1 <= k < |rows| ensures ScoreOfRow(rows[k], 1).None? {
      var t := show(ScoreOrZero(Take(scores, 12)[k - 1].1));
      assert rows[k][1] == Str(t + "%");
      PercentTextUnparsed(t);
    }
    UnscoredNoStyles(rows, 1, passMark, |rows|);
  }

  /** The subject table with the score in its score cell, so that each row gets its band. */
  function SubjectRows(scores: seq<(string, Option<real>)>, passMark: int): (r: seq<seq<Cell>>)
    ensures |r| == 1 + |Take(scores, 12)|
  {
    var shown := Take(scores, 12);
    [[Str("Subject"), Str("Average Score"), Str("Meaning")]] +
    seq(|shown|, k requires 0 <= k < |shown| =>
      var score := ScoreOrZero(shown[k].1);
      [Str(shown[k].0), Num(score), Str(Meaning(score, passMark))])
  }

  /** Every shown subject's row is coloured, with the colour of the band its meaning names. */
  lemma SubjectTableColoured(scores: seq<(string, Option<real>)>, passMark: int)
    ensures var rows := SubjectRows(scores, passMark);
      forall k :: 1 <= k < |rows| ==>
        var score := ScoreOrZero(scores[k - 1].1);
        && rows[k][0] == Str(scores[k - 1].0)
        && rows[k][2] == Str(BandMeaning(BandOf(score, passMark)))
        && RowBackground(k, BandRowColour(BandOf(score, passMark))) in RowStyles(rows, 1, passMark, |rows|)
  {
    var rows := SubjectRows(scores, passMark);
    RowStylesSpec(rows, 1, passMark, |rows|);
    forall k | 1 <= k < |rows|
      ensures var score := ScoreOrZero(scores[k - 1].1);
        && rows[k][2] == Str(BandMeaning(BandOf(score, passMark)))
        && RowBackground(k, BandRowColour(BandOf(score, passMark))) in RowStyles(rows, 1, passMark, |rows|)
    {
      var score := ScoreOrZero(scores[k - 1].1);
      assert ScoreOfRow(rows[k], 1) == Some(score);
      SitesAgree(score, passMark);
    }
  }

  /** The subject breakdown: none without subject scores, otherwise the table and whether the
   *  truncation note follows it. */
  datatype Breakdown = NoSubjects | Breakdown(rows: seq<seq<Cell>>, note: bool)

  const MAX_ROWS: nat := 12

  function SubjectBreakdown(scores: seq<(string, Option<real>)>, passMark: int): Breakdown
  {
    if scores == [] then NoSubjects else Breakdown(SubjectRows(scores, passMark), |scores| > MAX_ROWS)
  }

  /** At most twelve rows follow the header, in input order, and the note is printed exactly when
   *  subjects were cut. */
  lemma BreakdownSpec(scores: seq<(string, Option<real>)>, passMark: int)
    ensures SubjectBreakdown(scores, passMark).NoSubjects? <==> scores == []
    ensures var b := SubjectBreakdown(scores, passMark);
      b.Breakdown? ==>
        && |b.rows| == 1 + (if |scores| < MAX_ROWS then |scores| else MAX_ROWS)
        && (b.note <==> |scores| > MAX_ROWS)
        && forall k :: 1 <= k < |b.rows| ==> b.rows[k][0] == Str(scores[k - 1].0)
  {
  }

  // ---------------------------------------------------------------------------------------------
  // The teacher's remark and the best and weakest subject

  datatype Remark = Excellent | GoodProgress | BelowTarget

  /** The remark on the overall mean (a missing mean is read as 0): 75 and above, else at least
   *  the pass mark, else below it. */
  function TeacherRemark(overallMean: Option<real>, passMark: int): Remark
  {
    var mean := ScoreOrZero(overallMean);
    if mean >= 75.0 then Excellent else if mean >= passMark as real then GoodProgress else BelowTarget
  }

  function RemarkText(r: Remark): string
  {
    match r
    case Excellent =>
      "Excellent and consistent effort. The learner demonstrates strong mastery across most subjects."
    case GoodProgress =>
      "Good progress. The learner meets expectations and should continue steady revision."
    case BelowTarget =>
      "Performance is below target. The learner needs close support and a structured improvement plan."
  }

  function RemarkRank(r: Remark): nat
  {
    match r
    case Excellent => 2
    case GoodProgress => 1
    case BelowTarget => 0
  }

  /** The remark never gets worse as the mean rises, and each remark is its range of means. */
  lemma RemarkSpec(x: real, y: real, passMark: int)
    ensures x <= y ==> RemarkRank(TeacherRemark(Some(x), passMark)) <= RemarkRank(TeacherRemark(Some(y), passMark))
    ensures TeacherRemark(Some(x), passMark) == Excellent <==> x >= 75.0
    ensures TeacherRemark(Some(x), passMark) == GoodProgress <==> passMark as real <= x < 75.0
    ensures TeacherRemark(Some(x), passMark) == BelowTarget <==> x < 75.0 && x < passMark as real
    ensures TeacherRemark(None, passMark) == TeacherRemark(Some(0.0), passMark)
  {
  }

  /** The (subject, score) pairs that are sorted, a missing score read as 0. */
  function SubjectPairs(scores: seq<(string, Option<real>)>): (r: seq<(string, real)>)
    ensures |r| == |scores|
    ensures forall k :: 0 <= k < |r| ==> r[k] == (scores[k].0, ScoreOrZero(scores[k].1))
  {
    seq(|scores|, k requires 0 <= k < |scores| => (scores[k].0, ScoreOrZero(scores[k].1)))
  }

  /** `sorted(key=score, reverse=True)` is a stable sort by "score at least". */
  predicate ScoreGe(a: (string, real), b: (string, real)) { a.1 >= b.1 }

  lemma ScoreGeTotal()
    ensures TotalPreorder(ScoreGe)
  {
  }

  /** The best and the weakest subject: the first and the last of the sorted pairs, none when
   *  there are no scores. */
  function BestAndWeakest(scores: seq<(string, Option<real>)>): Option<((string, real), (string, real))>
  {
    if scores == [] then None
    else
      var sorted := SortBy(SubjectPairs(scores), ScoreGe);
      Some((sorted[0], sorted[|sorted| - 1]))
  }

  /** The best subject has the highest score and is the first subject with it; the weakest has
   *  the lowest score and is the last subject with it. */
  lemma BestAndWeakestSpec(scores: seq<(string, Option<real>)>)
    ensures BestAndWeakest(scores).None? <==> scores == []
    ensures BestAndWeakest(scores).Some? ==>
      var ps := SubjectPairs(scores);
      var best := BestAndWeakest(scores).value.0;
      var weakest := BestAndWeakest(scores).value.1;
      && (forall k :: 0 <= k < |ps| ==> weakest.1 <= ps[k].1 <= best.1)
      && (exists i :: 0 <= i < |ps| && ps[i] == best && forall k :: 0 <= k < i ==> ps[k].1 < best.1)
      && (exists i :: 0 <= i < |ps| && ps[i] == weakest && forall k :: i < k < |ps| ==> ps[k].1 > weakest.1)
  {
    if scores != [] {
      var ps := SubjectPairs(scores);
      var sorted := SortBy(ps, ScoreGe);
      BestIsFirst(ps);
      WeakestIsLast(ps);
    }
  }

  /** The head of the sorted pairs is a maximum, and the first pair with its score. */
  lemma BestIsFirst(ps: seq<(string, real)>)
    requires ps != []
    ensures var best := SortBy(ps, ScoreGe)[0];
      && (forall k :: 0 <= k < |ps| ==> ps[k].1 <= best.1)
      && (exists i :: 0 <= i < |ps| && ps[i] == best && forall k :: 0 <= k < i ==> ps[k].1 < best.1)
  {
    ScoreGeTotal();
    SortHead(ps, ScoreGe);
  }

  /** The last of the sorted pairs is a minimum, and the last pair with its score. */
  lemma WeakestIsLast(ps: seq<(string, real)>)
    requires ps != []
    ensures var weakest := SortBy(ps, ScoreGe)[|ps| - 1];
      && (forall k :: 0 <= k < |ps| ==> weakest.1 <= ps[k].1)
      && (exists i :: 0 <= i < |ps| && ps[i] == weakest && forall k :: i < k < |ps| ==> ps[k].1 > weakest.1)
  {
    ScoreGeTotal();
    SortLast(ps, ScoreGe);
  }

  /** `best_subject` and `needs_support` as printed: "name (score%)", "N/A" without scores. */
  function SubjectHighlights(scores: seq<(string, Option<real>)>, show: real -> string): (r: (string, string))
    ensures scores == [] ==> r == ("N/A", "N/A")
  {
    match BestAndWeakest(scores)
    case None => ("N/A", "N/A")
    case Some((best, weakest)) =>
      (best.0 + " (" + show(best.1) + "%)", weakest.0 + " (" + show(weakest.1) + "%)")
  }

}
