/** The report routes' own logic: the file-name token made from a user-supplied name, the school
 *  name read from the uploaded rows, and the selection of one class's rows for a class report. */
module Reports {
  import opened Wrappers
  import opened Seqs
  import opened Text
  import opened Frames

  // ---------------------------------------------------------------------------------------------
  // `_safe_token`

  /** The characters a token may hold: `[A-Za-z0-9._-]`. */
  predicate TokenChar(c: char) { IsAlpha(c) || IsDigit(c) || c == '.' || c == '_' || c == '-' }

  /** The characters stripped from both ends of a token. */
  const TOKEN_EDGES: set<char> := {'.', '_', '-'}

  /** `re.sub(r"[^A-Za-z0-9._-]+", "_", s)`: every maximal run of other characters becomes one "_";
   *  `inRun` says the character before `s` already began such a run. */
  function Collapse(s: string, inRun: bool): (r: string)
    ensures forall i :: 0 <= i < |r| ==> TokenChar(r[i])
  {
    if s == [] then []
    else if TokenChar(s[0]) then [s[0]] + Collapse(s[1..], false)
    else if inRun then Collapse(s[1..], true)
    else "_" + Collapse(s[1..], true)
  }

  /** `_safe_token(value, fallback)`. */
  function SafeToken(value: string, fallback: string): string
  {
    var t := Strip(Collapse(value, false), TOKEN_EDGES);
    if t == [] then fallback else t
  }

  /** A well-formed token: non-empty, token characters only, no '.', '_' or '-' at either end. */
  predicate IsToken(t: string)
  {
    t != [] && (forall i :: 0 <= i < |t| ==> TokenChar(t[i])) && t[0] !in TOKEN_EDGES && t[|t| - 1] !in TOKEN_EDGES
  }

  /** Whether a run of other characters is open after `u`, read from state `inRun`. */
  function RunAfter(u: string, inRun: bool): bool
  {
    if u == [] then inRun else !TokenChar(u[|u| - 1])
  }

  /** The substitution works piece by piece. */
  lemma {:induction false} CollapseAppend(u: string, x: string, inRun: bool)
    ensures Collapse(u + x, inRun) == Collapse(u, inRun) + Collapse(x, RunAfter(u, inRun))
  {
    if u != [] {
      assert (u + x)[0] == u[0] && (u + x)[1..] == u[1..] + x;
      CollapseAppend(u[1..], x, !TokenChar(u[0]));
      if |u| > 1 {
        assert u[1..][|u| - 2] == u[|u| - 1];
      }
    } else {
      assert u + x == x;
    }
  }

  /** A string of token characters is left as it is. */
  lemma {:induction false} CollapseTokens(s: string, inRun: bool)
    requires forall i :: 0 <= i < |s| ==> TokenChar(s[i])
    ensures Collapse(s, inRun) == s
  {
    if s != [] {
      CollapseTokens(s[1..], false);
    }
  }

  /** A run of other characters entered from a run adds nothing. */
  lemma {:induction false} CollapseInRun(w: string, v: string)
    requires forall i :: 0 <= i < |w| ==> !TokenChar(w[i])
    ensures Collapse(w + v, true) == Collapse(v, true)
  {
    if w != [] {
      assert (w + v)[1..] == w[1..] + v;
      CollapseInRun(w[1..], v);
    } else {
      assert w + v == v;
    }
  }

  /** The run `w`, followed by a token character or nothing, becomes one "_". */
  lemma CollapseEnterRun(w: string, v: string)
    requires w != [] && forall i :: 0 <= i < |w| ==> !TokenChar(w[i])
    requires v == [] || TokenChar(v[0])
    ensures Collapse(w + v, false) == "_" + Collapse(v, false)
  {
    assert (w + v)[0] == w[0] && (w + v)[1..] == w[1..] + v;
    CollapseInRun(w[1..], v);
  }

  /** A maximal run `w` of other characters, between `u` and `v`, becomes exactly one "_". */
  lemma CollapseRun(u: string, w: string, v: string)
    requires w != [] && forall i :: 0 <= i < |w| ==> !TokenChar(w[i])
    requires u == [] || TokenChar(u[|u| - 1])
    requires v == [] || TokenChar(v[0])
    ensures Collapse(u + w + v, false) == Collapse(u, false) + "_" + Collapse(v, false)
  {
    var x := w + v;
    assert u + w + v == u + x;
    CollapseAppend(u, x, false);
    assert RunAfter(u, false) == false;
    CollapseEnterRun(w, v);
    var a, b := Collapse(u, false), Collapse(v, false);
    assert a + ("_" + b) == a + "_" + b;
  }

  /** The token is the fallback, or well formed; with a well-formed fallback it is always well formed. */
  lemma SafeTokenSpec(value: string, fallback: string)
    ensures var r := SafeToken(value, fallback);
      && (r == fallback || IsToken(r))
      && (IsToken(fallback) ==> IsToken(r))
      && (fallback != [] ==> r != [])
  {
    var c := Collapse(value, false);
    StripSpec(c, TOKEN_EDGES);
    var t := Strip(c, TOKEN_EDGES);
    forall i | 0 <= i < |t| ensures TokenChar(t[i]) {
      var j :| 0 <= j < |c| && c[j] == t[i];
    }
  }

  /** A well-formed token is its own token. */
  lemma TokenFixed(t: string, fallback: string)
    requires IsToken(t)
    ensures SafeToken(t, fallback) == t
  {
    CollapseTokens(t, false);
  }

  /** Making a token of a token changes nothing. */
  lemma SafeTokenIdempotent(value: string, fallback: string)
    requires IsToken(fallback)
    ensures SafeToken(SafeToken(value, fallback), fallback) == SafeToken(value, fallback)
  {
    SafeTokenSpec(value, fallback);
    TokenFixed(SafeToken(value, fallback), fallback);
  }

  /** A name made only of separators falls back. */
  lemma SeparatorsFallBack(value: string, fallback: string)
    requires forall i :: 0 <= i < |value| ==> value[i] in TOKEN_EDGES
    ensures SafeToken(value, fallback) == fallback
  {
    CollapseTokens(value, false);
    StripLeftAll(value);
  }

  lemma {:induction false} StripLeftAll(s: string)
    requires forall i :: 0 <= i < |s| ==> s[i] in TOKEN_EDGES
    ensures StripLeft(s, TOKEN_EDGES) == []
  {
    if s != [] {
      StripLeftAll(s[1..]);
    }
  }

  // ---------------------------------------------------------------------------------------------
  // `_resolve_school_name`

  /** The columns that may carry the school's name, in the order they are tried. */
  const SCHOOL_COLUMNS: seq<string> := ["school", "school_name", "institution"]

  /** `df[col].dropna().astype(str).str.strip()` without the blank values. */
  function SchoolValues(rows: seq<Row>, col: string): (r: seq<string>)
    ensures forall i :: 0 <= i < |r| ==> r[i] != ""
  {
    if rows == [] then []
    else
      var c := Get(rows[|rows| - 1], col);
      var t := Trim(CellString(c));
      SchoolValues(rows[..|rows| - 1], col) + (if c != Missing && t != "" then [t] else [])
  }

  function Count(vals: seq<string>, x: string): nat { multiset(vals)[x] }

  /** `a` is at least as good a mode as `b`: more frequent, or as frequent and not larger. */
  predicate Beats(vals: seq<string>, a: string, b: string)
  {
    Count(vals, a) > Count(vals, b) || (Count(vals, a) == Count(vals, b) && StrLe(a, b))
  }

  function ModeAmong(vals: seq<string>, cands: seq<string>): string
    requires cands != []
  {
    if |cands| == 1 then cands[0]
    else
      var m := ModeAmong(vals, cands[1..]);
      if Beats(vals, cands[0], m) then cands[0] else m
  }

  /** `mode().iloc[0]`: the most frequent value, the smallest of those on a tie. */
  function Mode(vals: seq<string>): string
    requires vals != []
  {
    ModeAmong(vals, vals)
  }

  /** `m` is a value of `vals` that no value outnumbers, and the smallest of those as frequent. */
  predicate IsMode(vals: seq<string>, m: string)
  {
    m in vals && forall x :: x in vals ==> Count(vals, x) <= Count(vals, m) && (Count(vals, x) == Count(vals, m) ==> StrLe(m, x))
  }

  lemma {:induction false} ModeAmongSpec(vals: seq<string>, cands: seq<string>)
    requires cands != []
    ensures ModeAmong(vals, cands) in cands
    ensures forall x :: x in cands ==> Beats(vals, ModeAmong(vals, cands), x)
  {
    if |cands| == 1 {
      StrLeTotal(cands[0], cands[0]);
    } else {
      var t := cands[1..];
      ModeAmongSpec(vals, t);
      var m := ModeAmong(vals, t);
      var h := cands[0];
      StrLeTotal(h, m);
      StrLeTotal(h, h);
      forall x | x in cands ensures Beats(vals, ModeAmong(vals, cands), x) {
        if x != h {
          assert x in t;
          if Beats(vals, h, m) && Count(vals, h) == Count(vals, x) {
            StrLeTrans(h, m, x);
          }
        }
      }
    }
  }

  /** `Mode` picks the mode, and it is the only value that is one. */
  lemma ModeSpec(vals: seq<string>)
    requires vals != []
    ensures IsMode(vals, Mode(vals))
    ensures forall m :: IsMode(vals, m) ==> m == Mode(vals)
  {
    ModeAmongSpec(vals, vals);
    forall m | IsMode(vals, m) ensures m == Mode(vals) {
      var d := Mode(vals);
      assert Beats(vals, d, m);
      StrLeAntisym(m, d);
    }
  }

  /** The loop over `SCHOOL_COLUMNS` with its early return. */
  function SchoolFrom(f: Frame, cols: seq<string>, fallback: string): string
  {
    if cols == [] then fallback
    else if cols[0] in f.columns && SchoolValues(f.rows, cols[0]) != [] then Mode(SchoolValues(f.rows, cols[0]))
    else SchoolFrom(f, cols[1..], fallback)
  }

  /** `_resolve_school_name(df)`, with the configured `SCHOOL_NAME` as `fallback`. */
  function SchoolName(f: Frame, fallback: string): string
  {
    SchoolFrom(f, SCHOOL_COLUMNS, fallback)
  }

  /** Column `c` is present and has a non-blank value. */
  predicate Usable(f: Frame, c: string) { c in f.columns && SchoolValues(f.rows, c) != [] }

  /** With no usable column the configured name is used. */
  lemma {:induction false} SchoolFromNone(f: Frame, cols: seq<string>, fallback: string)
    requires forall i :: 0 <= i < |cols| ==> !Usable(f, cols[i])
    ensures SchoolFrom(f, cols, fallback) == fallback
  {
    if cols != [] {
      assert !Usable(f, cols[0]);
      assert forall i :: 0 <= i < |cols[1..]| ==> cols[1..][i] == cols[i + 1];
      SchoolFromNone(f, cols[1..], fallback);
    }
  }

  /** Otherwise the first usable column decides. */
  lemma {:induction false} SchoolFromFirst(f: Frame, cols: seq<string>, fallback: string, i: int)
    requires 0 <= i < |cols| && Usable(f, cols[i]) && forall j :: 0 <= j < i ==> !Usable(f, cols[j])
    ensures SchoolFrom(f, cols, fallback) == Mode(SchoolValues(f.rows, cols[i]))
  {
    if i > 0 {
      assert !Usable(f, cols[0]);
      assert forall j :: 0 <= j < |cols[1..]| ==> cols[1..][j] == cols[j + 1];
      SchoolFromFirst(f, cols[1..], fallback, i - 1);
    }
  }

  /** The school name is the mode of the first usable school column's values, or the configured
   *  name when there is none. */
  lemma SchoolNameSpec(f: Frame, fallback: string)
    ensures (forall i :: 0 <= i < |SCHOOL_COLUMNS| ==> !Usable(f, SCHOOL_COLUMNS[i])) ==> SchoolName(f, fallback) == fallback
    ensures forall i :: (0 <= i < |SCHOOL_COLUMNS| && Usable(f, SCHOOL_COLUMNS[i])
      && (forall j :: 0 <= j < i ==> !Usable(f, SCHOOL_COLUMNS[j]))) ==>
      IsMode(SchoolValues(f.rows, SCHOOL_COLUMNS[i]), SchoolName(f, fallback))
  {
    if forall i :: 0 <= i < |SCHOOL_COLUMNS| ==> !Usable(f, SCHOOL_COLUMNS[i]) {
      SchoolFromNone(f, SCHOOL_COLUMNS, fallback);
    }
    forall i | 0 <= i < |SCHOOL_COLUMNS| && Usable(f, SCHOOL_COLUMNS[i]) && (forall j :: 0 <= j < i ==> !Usable(f, SCHOOL_COLUMNS[j]))
      ensures IsMode(SchoolValues(f.rows, SCHOOL_COLUMNS[i]), SchoolName(f, fallback))
    {
      SchoolFromFirst(f, SCHOOL_COLUMNS, fallback, i);
      ModeSpec(SchoolValues(f.rows, SCHOOL_COLUMNS[i]));
    }
  }

  /** The school values are already trimmed: `str.strip()` was applied to each. */
  lemma {:induction false} SchoolValuesTrimmed(rows: seq<Row>, col: string)
    ensures forall i :: 0 <= i < |SchoolValues(rows, col)| ==> Trim(SchoolValues(rows, col)[i]) == SchoolValues(rows, col)[i]
  {
    if rows != [] {
      var p := rows[..|rows| - 1];
      SchoolValuesTrimmed(p, col);
      var c := Get(rows[|rows| - 1], col);
      var t := Trim(CellString(c));
      TrimSpec(CellString(c));
      TrimNoop(t);
      var r := SchoolValues(rows, col);
      assert r == SchoolValues(p, col) + (if c != Missing && t != "" then [t] else []);
      forall i | 0 <= i < |r| ensures Trim(r[i]) == r[i] {
        if i < |SchoolValues(p, col)| {
          assert r[i] == SchoolValues(p, col)[i];
        }
      }
    }
  }

  // ---------------------------------------------------------------------------------------------
  // The class filter of `class_report_pdf`

  /** The columns that may name a row's class, in the order they are tried. */
  const CLASS_COLUMNS: seq<string> := ["class", "grade", "stream", "form"]

  /** The first of `cands` that is a column of the table. */
  function FirstPresent(cands: seq<string>, columns: seq<string>): Option<string>
  {
    if cands == [] then None
    else if cands[0] in columns then Some(cands[0])
    else FirstPresent(cands[1..], columns)
  }

  lemma {:induction false} FirstPresentSpec(cands: seq<string>, columns: seq<string>)
    ensures FirstPresent(cands, columns).None? <==> forall i :: 0 <= i < |cands| ==> cands[i] !in columns
    ensures FirstPresent(cands, columns).Some? ==>
      exists i :: 0 <= i < |cands| && cands[i] == FirstPresent(cands, columns).value && cands[i] in columns
        && forall j :: 0 <= j < i ==> cands[j] !in columns
  {
    if cands != [] {
      FirstPresentSpec(cands[1..], columns);
      if cands[0] !in columns {
        if FirstPresent(cands, columns).Some? {
          var i :| 0 <= i < |cands[1..]| && cands[1..][i] == FirstPresent(cands, columns).value && cands[1..][i] in columns
            && forall j :: 0 <= j < i ==> cands[1..][j] !in columns;
          assert cands[i + 1] == cands[1..][i];
          forall j | 0 <= j < i + 1 ensures cands[j] !in columns {
            if j > 0 { assert cands[j] == cands[1..][j - 1]; }
          }
        } else {
          forall i | 0 <= i < |cands| ensures cands[i] !in columns {
            if i > 0 { assert cands[i] == cands[1..][i - 1]; }
          }
        }
      }
    }
  }

  /** A row's class as compared: `astype(str).str.strip().str.lower()`. */
  function ClassKey(c: Cell): string { Lower(Trim(CellString(c))) }

  /** `df[class_col].astype(str).str.strip().str.lower() == want` as a row test. */
  function InClass(col: string, want: string): Row -> bool
  {
    (row: Row) => ClassKey(Get(row, col)) == want
  }

  datatype ClassRows = ClassRows(column: string, rows: seq<Row>) | Refused(status: nat, message: string)

  /** The rows of class `className` for a class report, or the HTTP error the route raises. */
  function SelectClass(f: Frame, className: string): ClassRows
  {
    if f.rows == [] || className == "" then Refused(400, "Provide 'data' and 'class_name'.")
    else
      match FirstPresent(CLASS_COLUMNS, f.columns)
      case None => Refused(400, "No class/grade column found in data.")
      case Some(col) =>
        var want := Lower(Trim(className));
        var rows := Filter(f.rows, InClass(col, want));
        if rows == [] then Refused(404, "No data found for class '" + className + "'.")
        else ClassRows(col, rows)
  }

  /** The error cases and the selection: a 400 when data or the name is missing or no class column
   *  is present, a 404 when no row matches; otherwise the first class column is used and exactly the
   *  rows whose class, trimmed and lower-cased, is the trimmed lower-cased name are kept. */
  lemma SelectClassSpec(f: Frame, className: string)
    ensures var r := SelectClass(f, className);
      r.Refused? ==> r.status == 400 || r.status == 404
    ensures SelectClass(f, className) == Refused(400, "No class/grade column found in data.") <==>
      f.rows != [] && className != "" && forall i :: 0 <= i < |CLASS_COLUMNS| ==> CLASS_COLUMNS[i] !in f.columns
    ensures SelectClass(f, className).ClassRows? ==>
      var r := SelectClass(f, className);
      && (exists i :: 0 <= i < |CLASS_COLUMNS| && CLASS_COLUMNS[i] == r.column && r.column in f.columns
            && forall j :: 0 <= j < i ==> CLASS_COLUMNS[j] !in f.columns)
      && (forall row :: row in r.rows <==> row in f.rows && ClassKey(Get(row, r.column)) == Lower(Trim(className)))
    ensures SelectClass(f, className).Refused? && SelectClass(f, className).status == 404 <==>
      f.rows != [] && className != "" && FirstPresent(CLASS_COLUMNS, f.columns).Some?
      && forall row :: row in f.rows ==> ClassKey(Get(row, FirstPresent(CLASS_COLUMNS, f.columns).value)) != Lower(Trim(className))
  {
    FirstPresentSpec(CLASS_COLUMNS, f.columns);
    var col := FirstPresent(CLASS_COLUMNS, f.columns);
    if f.rows != [] && className != "" && col.Some? {
      var want := Lower(Trim(className));
      var p := InClass(col.value, want);
      var rows := Filter(f.rows, p);
      assert forall row :: row in rows <==> row in f.rows && p(row);
      if rows != [] {
        assert rows[0] in rows;
      }
    }
  }

  /** Names that are equal once trimmed and lower-cased select the same rows. */
  lemma SelectClassInsensitive(f: Frame, a: string, b: string)
    requires a != "" && b != "" && Lower(Trim(a)) == Lower(Trim(b))
    ensures SelectClass(f, a).ClassRows? <==> SelectClass(f, b).ClassRows?
    ensures SelectClass(f, a).ClassRows? ==> SelectClass(f, a) == SelectClass(f, b)
  {
  }
}
