/** Ingest rules for an uploaded sheet: the wide/long layout guess, the alias-based column
 *  suggestion, the wide-to-long melt and the validation issues reported before cleaning. */
module Parser {
  import opened Wrappers
  import opened Text
  import opened Seqs
  import opened Frames

  // ---------------------------------------------------------------------------------------------
  // The alias table (`COLUMN_ALIASES`), in its declaration order

  const STUDENT_ID_ALIASES: seq<string> := ["student_id", "studentid", "student id", "id", "admission_no",
    "admission no", "adm_no", "adm no", "reg_no", "registration",
    "index_no", "index no", "student_number", "student number", "s/n"]
  const NAME_ALIASES: seq<string> := ["name", "student_name", "student name", "full_name", "full name",
    "pupil_name", "pupil name", "learner_name", "learner name",
    "first_name", "surname", "last_name"]
  const GENDER_ALIASES: seq<string> := ["gender", "sex", "gen", "m/f"]
  const CLASS_ALIASES: seq<string> := ["class", "grade", "form", "level", "year", "standard",
    "class_name", "class name", "grade_level", "grade level", "stream", "section"]
  const STREAM_ALIASES: seq<string> := ["stream", "section", "arm", "division"]
  const SCHOOL_ALIASES: seq<string> := ["school", "school_name", "school name", "institution", "centre", "center"]
  const REGION_ALIASES: seq<string> := ["region", "county", "district", "sub_county", "sub county",
    "zone", "ward", "province", "state", "area"]
  const SUBJECT_ALIASES: seq<string> := ["subject", "subject_name", "subject name", "course", "paper", "exam_subject"]
  const SCORE_ALIASES: seq<string> := ["score", "marks", "mark", "total", "total_score", "total score",
    "raw_score", "raw score", "points", "result", "perc", "percentage"]
  const MAX_SCORE_ALIASES: seq<string> := ["max_score", "max score", "max_marks", "max marks", "total_marks",
    "total marks", "out_of", "out of", "max", "maximum"]
  const TERM_ALIASES: seq<string> := ["term", "semester", "period", "exam_period", "exam period", "session"]
  const EXAM_NAME_ALIASES: seq<string> := ["exam_name", "exam name", "assessment", "assessment_name",
    "assessment name", "test", "exam_type", "exam type", "exam"]
  const YEAR_ALIASES: seq<string> := ["year", "academic_year", "academic year", "acad_year"]

  /** Field names, in the dictionary's order, and their alias lists at the same positions. */
  const FIELDS: seq<string> := ["student_id", "name", "gender", "class", "stream", "school", "region",
    "subject", "score", "max_score", "term", "exam_name", "year"]
  const ALIAS_LISTS: seq<seq<string>> := [STUDENT_ID_ALIASES, NAME_ALIASES, GENDER_ALIASES,
    CLASS_ALIASES, STREAM_ALIASES, SCHOOL_ALIASES, REGION_ALIASES, SUBJECT_ALIASES, SCORE_ALIASES,
    MAX_SCORE_ALIASES, TERM_ALIASES, EXAM_NAME_ALIASES, YEAR_ALIASES]

  /** A field mapping as the dictionary's items, in order: field name and chosen column. */
  type Mapping = seq<(string, Option<string>)>

  /** `mapping.get(field)`: the column of the first entry for `field`, None when there is none. */
  function Lookup(mapping: Mapping, field: string): (r: Option<string>)
    ensures r.Some? ==> exists k :: 0 <= k < |mapping| && mapping[k] == (field, r)
  {
    if mapping == [] then None
    else if mapping[0].0 == field then mapping[0].1
    else Lookup(mapping[1..], field)
  }

  lemma {:induction false} LookupAt(mapping: Mapping, k: int)
    requires 0 <= k < |mapping|
    requires forall j :: 0 <= j < k ==> mapping[j].0 != mapping[k].0
    ensures Lookup(mapping, mapping[k].0) == mapping[k].1
  {
    if k > 0 {
      LookupAt(mapping[1..], k - 1);
    }
  }

  /** `cols_lower`: every column name lower-cased and trimmed, position by position. */
  function NormColumns(columns: seq<string>): (r: seq<string>)
    ensures |r| == |columns| && forall j :: 0 <= j < |columns| ==> r[j] == Norm(columns[j])
  {
    seq(|columns|, j requires 0 <= j < |columns| => Norm(columns[j]))
  }

  // ---------------------------------------------------------------------------------------------
  // `detect_layout`

  datatype Layout = Long | Wide

  /** Some normalised column name is a subject alias. */
  predicate HasSubjectColumn(columns: seq<string>)
  {
    exists k :: 0 <= k < |SUBJECT_ALIASES| && SUBJECT_ALIASES[k] in NormColumns(columns)
  }

  /** A name in the union of all alias lists (`known_metadata_cols`). */
  predicate IsKnownAlias(c: string)
  {
    exists k :: 0 <= k < |ALIAS_LISTS| && c in ALIAS_LISTS[k]
  }

  predicate NotKnownAlias(c: string) { !IsKnownAlias(c) }

  /** Normalised column names outside every alias list, in column order. */
  function NonMetadata(columns: seq<string>): seq<string>
  {
    Filter(NormColumns(columns), NotKnownAlias)
  }

  /** A subject-alias column means long; otherwise three or more unrecognised columns mean wide. */
  function DetectLayout(columns: seq<string>): Layout
  {
    if HasSubjectColumn(columns) then Long
    else if |NonMetadata(columns)| >= 3 then Wide
    else Long
  }

  /** Any column whose normalised name is a subject alias forces the long layout. */
  lemma SubjectColumnMeansLong(columns: seq<string>, j: int)
    requires 0 <= j < |columns| && Norm(columns[j]) in SUBJECT_ALIASES
    ensures DetectLayout(columns) == Long
  {
    var k := IndexOf(SUBJECT_ALIASES, Norm(columns[j]));
    assert SUBJECT_ALIASES[k] == NormColumns(columns)[j];
  }

  /** Wide exactly when no column is a subject alias and at least three columns are outside the
   *  alias lists. */
  lemma WideIff(columns: seq<string>)
    ensures DetectLayout(columns) == Wide <==>
      (forall j :: 0 <= j < |columns| ==> Norm(columns[j]) !in SUBJECT_ALIASES)
      && CountWhere(NormColumns(columns), NotKnownAlias) >= 3
  {
    if HasSubjectColumn(columns) {
      var k :| 0 <= k < |SUBJECT_ALIASES| && SUBJECT_ALIASES[k] in NormColumns(columns);
      var j :| 0 <= j < |columns| && NormColumns(columns)[j] == SUBJECT_ALIASES[k];
      assert Norm(columns[j]) in SUBJECT_ALIASES;
    } else {
      forall j | 0 <= j < |columns| ensures Norm(columns[j]) !in SUBJECT_ALIASES {
        if Norm(columns[j]) in SUBJECT_ALIASES {
          SubjectColumnMeansLong(columns, j);
        }
      }
    }
  }

  // ---------------------------------------------------------------------------------------------
  // `suggest_column_mapping`

  /** For each field in table order, the column under its earliest matching alias. */
  function SuggestedMapping(columns: seq<string>): (r: Mapping)
    ensures |r| == |FIELDS|
  {
    seq(|FIELDS|, k requires 0 <= k < |FIELDS| => (FIELDS[k], FindColumn(columns, ALIAS_LISTS[k])))
  }

  /** `suggest_column_mapping`: a loop over the fields, and for each an inner loop over its aliases
   *  that stops at the first one some column normalises to. */
  method SuggestColumnMapping(columns: seq<string>) returns (mapping: Mapping)
    ensures mapping == SuggestedMapping(columns)
  {
    mapping := [];
    var f := 0;
    while f < |FIELDS|
      invariant 0 <= f <= |FIELDS| && |mapping| == f
      invariant forall k :: 0 <= k < f ==>
        mapping[k].0 == FIELDS[k] && mapping[k].1 == FindColumn(columns, ALIAS_LISTS[k])
    {
      var field, aliases := FIELDS[f], ALIAS_LISTS[f];
      var matched: Option<string> := None;
      var a := 0;
      while a < |aliases|
        invariant 0 <= a <= |aliases|
        invariant matched == None ==> FindColumn(columns, aliases) == FindColumn(columns, aliases[a..])
        invariant matched != None ==> matched == FindColumn(columns, aliases)
        decreases if matched == None then |aliases| - a else 0
      {
        var hit := LookupNorm(columns, aliases[a]);
        assert FindColumn(columns, aliases[a..]) == if hit.Some? then hit else FindColumn(columns, aliases[a + 1..]) by {
          assert aliases[a..][0] == aliases[a] && aliases[a..][1..] == aliases[a + 1..];
        }
        if hit.Some? {
          matched := hit;
          break;
        }
        a := a + 1;
      }
      mapping := mapping + [(field, matched)];
      f := f + 1;
    }
    assert |mapping| == |SuggestedMapping(columns)|;
  }

  /** A suggested column normalises to an alias of its field, no earlier alias of that field matches
   *  any column, and a field stays unmapped only when none of its aliases matches. */
  lemma SuggestionIsEarliestAlias(columns: seq<string>, mapping: Mapping, k: int)
    requires |mapping| == |FIELDS| && 0 <= k < |mapping|
    requires mapping[k].1 == FindColumn(columns, ALIAS_LISTS[k])
    ensures var aliases := ALIAS_LISTS[k];
      && (mapping[k].1.None? <==> forall a :: 0 <= a < |aliases| ==> !AliasPresent(columns, aliases, a, false))
      && (mapping[k].1.Some? ==>
            && mapping[k].1.value in columns
            && (exists a :: 0 <= a < |aliases| && Norm(mapping[k].1.value) == aliases[a]
                 && forall a' :: 0 <= a' < a ==> !AliasPresent(columns, aliases, a', false)))
  {
    FindColumnSpec(columns, ALIAS_LISTS[k]);
  }

  /** Suggestions are not de-duplicated: a lone "year" column is suggested both as the class and
   *  as the year. */
  lemma YearServesClassAndYear()
    ensures FindColumn(["year"], CLASS_ALIASES) == Some("year")
    ensures FindColumn(["year"], YEAR_ALIASES) == Some("year")
  {
    TrimNoop("year");
    assert Norm("year") == "year";
    assert LookupNorm(["year"], "year") == Some("year");
    assert FindColumn(["year"], CLASS_ALIASES[4..]) == Some("year");
    assert FindColumn(["year"], CLASS_ALIASES) == FindColumn(["year"], CLASS_ALIASES[4..]) by {
      forall a | 0 <= a < 4 ensures LookupNorm(["year"], CLASS_ALIASES[a]) == None {
        assert Norm(["year"][0]) != CLASS_ALIASES[a];
      }
      assert CLASS_ALIASES[1..][1..][1..][1..] == CLASS_ALIASES[4..];
    }
  }

  // ---------------------------------------------------------------------------------------------
  // `convert_wide_to_long`

  /** Helper columns that are never subjects; taken in this order (the source iterates a set). */
  const HELPER_COLUMNS: seq<string> := ["sheet_source", "source_sheet", "upload_session_id"]

  /** The mapped columns that are non-empty and present, in mapping order. */
  function MappedColumns(mapping: Mapping, columns: seq<string>): (r: seq<string>)
    ensures forall c :: c in r ==> c in columns && c != []
  {
    if mapping == [] then []
    else
      var v := mapping[|mapping| - 1].1;
      MappedColumns(mapping[..|mapping| - 1], columns) + (if v.Some? && v.value != [] && v.value in columns then [v.value] else [])
  }

  /** The elements of `s` that are in `keep`, in order. */
  function Present(s: seq<string>, keep: seq<string>): (r: seq<string>)
    ensures forall c :: c in r <==> c in s && c in keep
  {
    if s == [] then [] else Present(s[..|s| - 1], keep) + (if s[|s| - 1] in keep then [s[|s| - 1]] else [])
  }

  /** The elements of `s` that are not in `drop`, in order. */
  function Outside(s: seq<string>, drop: seq<string>): (r: seq<string>)
    ensures forall c :: c in r <==> c in s && c !in drop
    ensures |r| <= |s|
  {
    if s == [] then [] else Outside(s[..|s| - 1], drop) + (if s[|s| - 1] !in drop then [s[|s| - 1]] else [])
  }

  /** The identifier columns of the melt: mapped columns, then helper columns, duplicates dropped. */
  function MetadataColumns(mapping: Mapping, columns: seq<string>): (r: seq<string>)
    ensures NoDups(r)
    ensures forall c :: c in r <==> c in MappedColumns(mapping, columns) || (c in HELPER_COLUMNS && c in columns)
  {
    Distinct(MappedColumns(mapping, columns) + Present(HELPER_COLUMNS, columns))
  }

  /** The subject score columns: every other column, in column order. */
  function SubjectColumns(mapping: Mapping, columns: seq<string>): seq<string>
  {
    Outside(columns, MetadataColumns(mapping, columns))
  }

  /** One output row: the identifier cells, the subject column's name and its cell. */
  function MeltRow(row: Row, meta: seq<string>, subject: string): Row
  {
    (map c | c in meta :: Get(row, c))["subject" := Str(subject)]["score" := Get(row, subject)]
  }

  /** `melt`: every input row for the first subject column, then for the next, and so on. */
  function Melt(rows: seq<Row>, meta: seq<string>, subjects: seq<string>): (r: seq<Row>)
    ensures |r| == |subjects| * |rows|
  {
    if subjects == [] then []
    else
      var block := seq(|rows|, i requires 0 <= i < |rows| => MeltRow(rows[i], meta, subjects[0]));
      assert |subjects| * |rows| == |rows| + (|subjects| - 1) * |rows|;
      block + Melt(rows, meta, subjects[1..])
  }

  /** Row `i` of subject column `k` sits at position `k * |rows| + i`. */
  lemma {:induction false} MeltAt(rows: seq<Row>, meta: seq<string>, subjects: seq<string>, k: int, i: int)
    requires 0 <= k < |subjects| && 0 <= i < |rows|
    ensures 0 <= k * |rows| + i < |Melt(rows, meta, subjects)|
    ensures Melt(rows, meta, subjects)[k * |rows| + i] == MeltRow(rows[i], meta, subjects[k])
  {
    var n := |rows|;
    IndexBound(k, |subjects|, i, n);
    var block := seq(n, j requires 0 <= j < n => MeltRow(rows[j], meta, subjects[0]));
    var rest := Melt(rows, meta, subjects[1..]);
    assert Melt(rows, meta, subjects) == block + rest;
    if k > 0 {
      MeltAt(rows, meta, subjects[1..], k - 1, i);
      IndexStep(k, i, n);
    }
  }

  lemma IndexBound(k: int, s: int, i: int, n: int)
    requires 0 <= k < s && 0 <= i < n
    ensures 0 <= k * n + i < s * n
  {
    var d := s - k - 1;
    assert s * n == k * n + n + d * n;
    MulNonNegative(d, n);
  }

  lemma MulNonNegative(a: int, b: int)
    requires a >= 0 && b >= 0
    ensures a * b >= 0
  {
  }

  lemma IndexStep(k: int, i: int, n: int)
    ensures k * n + i == n + ((k - 1) * n + i)
  {
  }

  function ConvertWideToLong(f: Frame, mapping: Mapping): Frame
  {
    var meta := MetadataColumns(mapping, f.columns);
    var subjects := SubjectColumns(mapping, f.columns);
    if subjects == [] then f
    else Frame(meta + ["subject", "score"], Melt(f.rows, meta, subjects))
  }

  /** With no column left over the table is returned unchanged; otherwise it has one row per input
   *  row and subject column, the identifiers followed by "subject" and "score". */
  lemma ConvertShape(f: Frame, mapping: Mapping)
    ensures var subjects := SubjectColumns(mapping, f.columns);
      var r := ConvertWideToLong(f, mapping);
      && (subjects == [] ==> r == f)
      && (subjects != [] ==>
            && r.columns == MetadataColumns(mapping, f.columns) + ["subject", "score"]
            && |r.rows| == |f.rows| * |subjects|)
      && (forall c :: c in subjects <==> c in f.columns && c !in MetadataColumns(mapping, f.columns))
  {
  }

  /** Each output row keeps the identifier cells of its input row, names its subject column and
   *  carries that column's cell as the score. */
  lemma ConvertRow(f: Frame, mapping: Mapping, k: int, i: int)
    requires var subjects := SubjectColumns(mapping, f.columns); subjects != [] && 0 <= k < |subjects| && 0 <= i < |f.rows|
    ensures var subjects := SubjectColumns(mapping, f.columns);
      var meta := MetadataColumns(mapping, f.columns);
      var r := ConvertWideToLong(f, mapping);
      && k * |f.rows| + i < |r.rows|
      && Get(r.rows[k * |f.rows| + i], "subject") == Str(subjects[k])
      && Get(r.rows[k * |f.rows| + i], "score") == Get(f.rows[i], subjects[k])
      && (forall c :: c in meta && c != "subject" && c != "score" ==> Get(r.rows[k * |f.rows| + i], c) == Get(f.rows[i], c))
  {
    MeltAt(f.rows, MetadataColumns(mapping, f.columns), SubjectColumns(mapping, f.columns), k, i);
  }

  // ---------------------------------------------------------------------------------------------
  // `validate_data`

  datatype Severity = Critical | Warning | Info

  /** The `type` of an issue. */
  datatype IssueKind = MissingColumnKind | EmptyData | InvalidScoresKind | NegativeScores | ScoresOver100 | DuplicateRows

  function KindName(k: IssueKind): string
  {
    match k
    case MissingColumnKind => "missing_column"
    case EmptyData => "empty_data"
    case InvalidScoresKind => "invalid_scores"
    case NegativeScores => "negative_scores"
    case ScoresOver100 => "scores_over_100"
    case DuplicateRows => "duplicates"
  }

  datatype Issue = Issue(kind: IssueKind, severity: Severity, message: string)

  predicate IsScoreKind(k: IssueKind) { k.InvalidScoresKind? || k.NegativeScores? || k.ScoresOver100? }

  const REQUIRED_FIELDS: seq<string> := ["name", "score"]

  function AliasesOf(field: string): seq<string>
  {
    if field == "name" then NAME_ALIASES else if field == "score" then SCORE_ALIASES else []
  }

  function MissingColumn(field: string): Issue
  {
    Issue(MissingColumnKind, Critical,
      "Required column '" + field + "' not found. Expected one of: " + ListRepr(StrCells(AliasesOf(field))))
  }

  const EMPTY_DATA := Issue(EmptyData, Critical, "The uploaded file contains no data rows.")

  function InvalidScores(n: nat): Issue
  {
    Issue(InvalidScoresKind, Warning, IntToString(n) + " scores could not be parsed as numbers.")
  }

  const NEGATIVE_SCORES := Issue(NegativeScores, Warning, "Some scores are negative \U{2014} likely data entry errors.")

  const SCORES_OVER_100 := Issue(ScoresOver100, Info,
    "Some scores exceed 100. If these are raw scores, please ensure a 'max_score' column is present for percentage conversion.")

  function Duplicates(n: nat): Issue
  {
    Issue(DuplicateRows, Warning, IntToString(n) + " duplicate entries detected (same student + subject + term).")
  }

  /** Present cells that `to_numeric(errors="coerce")` turns into missing values. */
  predicate IsParseError(c: Cell) { !c.Missing? && ToNumeric(c).None? }

  /** Some cell parses to a number below zero / above one hundred. */
  predicate SomeBelowZero(cells: seq<Cell>) { exists i :: 0 <= i < |cells| && ToNumeric(cells[i]).Some? && ToNumeric(cells[i]).value < 0.0 }
  predicate SomeOver100(cells: seq<Cell>) { exists i :: 0 <= i < |cells| && ToNumeric(cells[i]).Some? && ToNumeric(cells[i]).value > 100.0 }

  /** `duplicated(subset=cols, keep=False)`: the row's key occurs in some other row. */
  predicate IsDuplicated(rows: seq<Row>, cols: seq<string>, i: int)
    requires 0 <= i < |rows|
  {
    KeyOf(rows[i], cols) in Keys(rows[..i] + rows[i + 1..], cols)
  }

  /** Number of rows flagged by `duplicated(keep=False)`. */
  function DuplicateCount(rows: seq<Row>, cols: seq<string>): nat
  {
    |set i | 0 <= i < |rows| && IsDuplicated(rows, cols, i)|
  }

  /** Two distinct rows sharing a key are both counted, so the count is at least two. */
  lemma SharedKeyCounted(rows: seq<Row>, cols: seq<string>, i: int, j: int)
    requires 0 <= i < j < |rows| && KeyOf(rows[i], cols) == KeyOf(rows[j], cols)
    ensures IsDuplicated(rows, cols, i) && IsDuplicated(rows, cols, j)
    ensures DuplicateCount(rows, cols) >= 2
  {
    var oi, oj := rows[..i] + rows[i + 1..], rows[..j] + rows[j + 1..];
    assert oi[j - 1] == rows[j];
    assert Keys(oi, cols)[j - 1] == KeyOf(rows[i], cols);
    assert oj[i] == rows[i];
    assert Keys(oj, cols)[i] == KeyOf(rows[j], cols);
    var flagged := set k | 0 <= k < |rows| && IsDuplicated(rows, cols, k);
    assert {i, j} <= flagged;
    assert |{i, j}| == 2;
    var rest := flagged - {i, j};
    assert flagged == {i, j} + rest;
    assert {i, j} * rest == {};
    assert DuplicateCount(rows, cols) == |flagged|;
  }

  /** The row key of the duplicate check: id (or name), subject and, when mapped, term. */
  function DuplicateKey(idCol: string, subjectCol: string, termCol: Option<string>): seq<string>
  {
    [idCol, subjectCol] + (if termCol.Some? then [termCol.value] else [])
  }

  /** One critical issue per required field the mapping leaves empty, in field order. */
  function RequiredIssues(mapping: Mapping): (r: seq<Issue>)
    ensures AllOfKind(r, MissingColumnKind)
    ensures MissingColumn("name") in r <==> Lookup(mapping, "name").None?
    ensures MissingColumn("score") in r <==> Lookup(mapping, "score").None?
  {
    MissingColumnsDiffer();
    (if Lookup(mapping, "name").None? then [MissingColumn("name")] else [])
    + (if Lookup(mapping, "score").None? then [MissingColumn("score")] else [])
  }

  /** The loop over the required fields. */
  method RequiredFieldIssues(mapping: Mapping) returns (issues: seq<Issue>)
    ensures issues == RequiredIssues(mapping)
  {
    issues := [];
    var k := 0;
    while k < |REQUIRED_FIELDS|
      invariant 0 <= k <= |REQUIRED_FIELDS|
      invariant issues == (if k > 0 && Lookup(mapping, "name").None? then [MissingColumn("name")] else [])
        + (if k > 1 && Lookup(mapping, "score").None? then [MissingColumn("score")] else [])
    {
      if Lookup(mapping, REQUIRED_FIELDS[k]).None? {
        issues := issues + [MissingColumn(REQUIRED_FIELDS[k])];
      }
      k := k + 1;
    }
  }

  /** The score checks on the score column's cells: unparseable values, negatives, and values over
   *  one hundred when no max-score column is mapped. */
  function ScoreIssues(cells: seq<Cell>, maxMapped: bool): (r: seq<Issue>)
    ensures forall q :: 0 <= q < |r| ==> IsScoreKind(r[q].kind)
    ensures InvalidScores(CountWhere(cells, IsParseError)) in r <==> CountWhere(cells, IsParseError) > 0
    ensures NEGATIVE_SCORES in r <==> SomeBelowZero(cells)
    ensures SCORES_OVER_100 in r <==> SomeOver100(cells) && !maxMapped
  {
    var invalidCount := CountWhere(cells, IsParseError);
    (if invalidCount > 0 then [InvalidScores(invalidCount)] else [])
    + (if SomeBelowZero(cells) then [NEGATIVE_SCORES] else [])
    + (if SomeOver100(cells) && !maxMapped then [SCORES_OVER_100] else [])
  }

  /** The score checks run only when a score column is mapped and present. */
  function ScoreChecks(f: Frame, scoreCol: Option<string>, maxCol: Option<string>): (r: seq<Issue>)
    ensures forall q :: 0 <= q < |r| ==> IsScoreKind(r[q].kind)
  {
    if scoreCol.Some? && scoreCol.value in f.columns then ScoreIssues(Column(f.rows, scoreCol.value), maxCol.Some?) else []
  }

  /** The duplicate check runs only when an id (or name) column and a subject column are mapped;
   *  the term joins the key when it is mapped too. */
  function DuplicateChecks(f: Frame, idCol: Option<string>, subjectCol: Option<string>, termCol: Option<string>): (r: seq<Issue>)
    ensures AllOfKind(r, DuplicateRows)
  {
    if idCol.Some? && subjectCol.Some? && idCol.value in f.columns && subjectCol.value in f.columns then
      var group := DuplicateKey(idCol.value, subjectCol.value, if termCol.Some? && termCol.value in f.columns then termCol else None);
      var dupeCount := DuplicateCount(f.rows, group);
      if dupeCount > 0 then [Duplicates(dupeCount)] else []
    else []
  }

  /** The column under which the duplicate check finds students: the id column, else the name. */
  function IdColumn(mapping: Mapping): Option<string>
  {
    if Lookup(mapping, "student_id").Some? then Lookup(mapping, "student_id") else Lookup(mapping, "name")
  }

  /** The issues of `validate_data` for the columns a mapping names, in the order its checks run. */
  function ValidationWith(f: Frame, m: Mapping): seq<Issue>
  {
    Checks(f, RequiredIssues(m), Lookup(m, "score"), Lookup(m, "max_score"), IdColumn(m), Lookup(m, "subject"), Lookup(m, "term"))
  }

  /** The required-field issues, then the empty-table, score and duplicate checks. */
  function Checks(f: Frame, required: seq<Issue>, scoreCol: Option<string>, maxCol: Option<string>,
                  idCol: Option<string>, subjectCol: Option<string>, termCol: Option<string>): seq<Issue>
  {
    required
    + (if |f.rows| == 0 then [EMPTY_DATA] else [])
    + ScoreChecks(f, scoreCol, maxCol)
    + DuplicateChecks(f, idCol, subjectCol, termCol)
  }

  /** `validate_data` reads the columns its own suggestion names. */
  function Validation(f: Frame): seq<Issue>
  {
    ValidationWith(f, SuggestedMapping(f.columns))
  }

  /** `validate_data`: the checks run in order, each appending its issues. */
  method ValidateData(f: Frame) returns (issues: seq<Issue>)
    ensures issues == Validation(f)
  {
    var mapping := SuggestColumnMapping(f.columns);
    issues := ValidateWith(f, mapping);
  }

  /** The checks of `validate_data` against the columns of a mapping. */
  method ValidateWith(f: Frame, mapping: Mapping) returns (issues: seq<Issue>)
    ensures issues == ValidationWith(f, mapping)
  {
    var required := RequiredFieldIssues(mapping);
    issues := RunChecks(f, required, Lookup(mapping, "score"), Lookup(mapping, "max_score"),
      IdColumn(mapping), Lookup(mapping, "subject"), Lookup(mapping, "term"));
  }

  /** The checks after the required fields, each appending its issues. */
  method RunChecks(f: Frame, required: seq<Issue>, scoreCol: Option<string>, maxCol: Option<string>,
                   idCol: Option<string>, subjectCol: Option<string>, termCol: Option<string>)
    returns (issues: seq<Issue>)
    ensures issues == Checks(f, required, scoreCol, maxCol, idCol, subjectCol, termCol)
  {
    var empty := if |f.rows| == 0 then [EMPTY_DATA] else [];
    issues := required + empty;
    issues := issues + ScoreChecks(f, scoreCol, maxCol);
    issues := issues + DuplicateChecks(f, idCol, subjectCol, termCol);
  }

  /** The suggested column of the field at position `k` of the table. */
  lemma SuggestedAt(columns: seq<string>, k: int)
    requires 0 <= k < |FIELDS|
    ensures Lookup(SuggestedMapping(columns), FIELDS[k]) == FindColumn(columns, ALIAS_LISTS[k])
  {
    var m := SuggestedMapping(columns);
    assert forall q :: 0 <= q < |m| ==> m[q].0 == FIELDS[q];
    FieldAt(m, k);
  }

  /** Every column a suggestion names is a column of the table. */
  lemma SuggestedIn(columns: seq<string>, field: string)
    ensures Lookup(SuggestedMapping(columns), field).Some? ==> Lookup(SuggestedMapping(columns), field).value in columns
  {
    var m := SuggestedMapping(columns);
    var r := Lookup(m, field);
    if r.Some? {
      var k :| 0 <= k < |m| && m[k] == (field, r);
      FindColumnIn(columns, ALIAS_LISTS[k]);
    }
  }

  /** A missing name or score column is a critical issue, and so is a table without rows. */
  lemma ValidationRequired(f: Frame, m: Mapping)
    ensures var issues := ValidationWith(f, m);
      && (MissingColumn("name") in issues <==> Lookup(m, "name").None?)
      && (MissingColumn("score") in issues <==> Lookup(m, "score").None?)
      && (EMPTY_DATA in issues <==> |f.rows| == 0)
  {
    var a, b := RequiredIssues(m), if |f.rows| == 0 then [EMPTY_DATA] else [];
    var c, d := ScoreChecks(f, Lookup(m, "score"), Lookup(m, "max_score")), DuplicateChecks(f, IdColumn(m), Lookup(m, "subject"), Lookup(m, "term"));
    assert ValidationWith(f, m) == a + b + c + d;
    InPartByKind(a, b, c, d, MissingColumn("name"));
    InPartByKind(a, b, c, d, MissingColumn("score"));
    InPartByKind(a, b, c, d, EMPTY_DATA);
  }

  /** Without a score column no score issue is raised. */
  lemma ValidationNoScores(f: Frame, m: Mapping)
    requires Lookup(m, "score").None?
    ensures var issues := ValidationWith(f, m);
      forall q :: 0 <= q < |issues| ==> !IsScoreKind(issues[q].kind)
  {
    var a, b := RequiredIssues(m), if |f.rows| == 0 then [EMPTY_DATA] else [];
    var c, d := ScoreChecks(f, Lookup(m, "score"), Lookup(m, "max_score")), DuplicateChecks(f, IdColumn(m), Lookup(m, "subject"), Lookup(m, "term"));
    assert ValidationWith(f, m) == a + b + c + d;
    assert c == [];
    PartsByKind(a, b, c, d);
  }

  /** With a score column of the table: unparseable scores, negative scores and, without a
   *  max-score column, scores over one hundred each raise their issue exactly when they occur. */
  lemma ValidationScores(f: Frame, m: Mapping)
    requires Lookup(m, "score").Some? && Lookup(m, "score").value in f.columns
    ensures var issues := ValidationWith(f, m);
      var cells := Column(f.rows, Lookup(m, "score").value);
      && (InvalidScores(CountWhere(cells, IsParseError)) in issues <==> CountWhere(cells, IsParseError) > 0)
      && (NEGATIVE_SCORES in issues <==> SomeBelowZero(cells))
      && (SCORES_OVER_100 in issues <==> SomeOver100(cells) && Lookup(m, "max_score").None?)
  {
    var a, b := RequiredIssues(m), if |f.rows| == 0 then [EMPTY_DATA] else [];
    var c, d := ScoreChecks(f, Lookup(m, "score"), Lookup(m, "max_score")), DuplicateChecks(f, IdColumn(m), Lookup(m, "subject"), Lookup(m, "term"));
    assert ValidationWith(f, m) == a + b + c + d;
    var cells := Column(f.rows, Lookup(m, "score").value);
    InPartByKind(a, b, c, d, InvalidScores(CountWhere(cells, IsParseError)));
    InPartByKind(a, b, c, d, NEGATIVE_SCORES);
    InPartByKind(a, b, c, d, SCORES_OVER_100);
  }

  /** A duplicate issue needs an id (or name) column and a subject column. */
  lemma DuplicatesNeedColumns(f: Frame, m: Mapping)
    ensures var issues := ValidationWith(f, m);
      forall q :: 0 <= q < |issues| && issues[q].kind == DuplicateRows ==> IdColumn(m).Some? && Lookup(m, "subject").Some?
  {
    var a, b := RequiredIssues(m), if |f.rows| == 0 then [EMPTY_DATA] else [];
    var c, d := ScoreChecks(f, Lookup(m, "score"), Lookup(m, "max_score")), DuplicateChecks(f, IdColumn(m), Lookup(m, "subject"), Lookup(m, "term"));
    assert ValidationWith(f, m) == a + b + c + d;
    PartsByKind(a, b, c, d);
  }

  /** With id (or name), subject and any mapped term column in the table, the duplicate issue is
   *  raised exactly when some rows share id, subject and (when mapped) term, and it counts every
   *  such row. */
  lemma ValidationDuplicates(f: Frame, m: Mapping)
    requires IdColumn(m).Some? && IdColumn(m).value in f.columns
    requires Lookup(m, "subject").Some? && Lookup(m, "subject").value in f.columns
    requires Lookup(m, "term").Some? ==> Lookup(m, "term").value in f.columns
    ensures var n := DuplicateCount(f.rows, DuplicateKey(IdColumn(m).value, Lookup(m, "subject").value, Lookup(m, "term")));
      Duplicates(n) in ValidationWith(f, m) <==> n > 0
  {
    var a, b := RequiredIssues(m), if |f.rows| == 0 then [EMPTY_DATA] else [];
    var c, d := ScoreChecks(f, Lookup(m, "score"), Lookup(m, "max_score")), DuplicateChecks(f, IdColumn(m), Lookup(m, "subject"), Lookup(m, "term"));
    assert ValidationWith(f, m) == a + b + c + d;
    InPartByKind(a, b, c, d, Duplicates(DuplicateCount(f.rows, DuplicateKey(IdColumn(m).value, Lookup(m, "subject").value, Lookup(m, "term")))));
  }

  predicate AllOfKind(s: seq<Issue>, k: IssueKind) { forall q :: 0 <= q < |s| ==> s[q].kind == k }

  /** The validation's four groups of issues have disjoint kinds, so an issue is in the whole list
   *  exactly when it is in the group of its kind. */
  lemma InPartByKind(a: seq<Issue>, b: seq<Issue>, c: seq<Issue>, d: seq<Issue>, x: Issue)
    requires AllOfKind(a, MissingColumnKind) && AllOfKind(b, EmptyData) && AllOfKind(d, DuplicateRows)
    requires forall q :: 0 <= q < |c| ==> IsScoreKind(c[q].kind)
    ensures x.kind == MissingColumnKind ==> (x in a + b + c + d <==> x in a)
    ensures x.kind == EmptyData ==> (x in a + b + c + d <==> x in b)
    ensures IsScoreKind(x.kind) ==> (x in a + b + c + d <==> x in c)
    ensures x.kind == DuplicateRows ==> (x in a + b + c + d <==> x in d)
  {
    assert forall y :: y in a + b + c + d <==> y in a || y in b || y in c || y in d;
  }

  /** An empty group leaves no issue of its kinds in the whole list. */
  lemma PartsByKind(a: seq<Issue>, b: seq<Issue>, c: seq<Issue>, d: seq<Issue>)
    requires AllOfKind(a, MissingColumnKind) && AllOfKind(b, EmptyData) && AllOfKind(d, DuplicateRows)
    requires forall q :: 0 <= q < |c| ==> IsScoreKind(c[q].kind)
    ensures c == [] ==> forall q :: 0 <= q < |a + b + c + d| ==> !IsScoreKind((a + b + c + d)[q].kind)
    ensures d == [] ==> forall q :: 0 <= q < |a + b + c + d| ==> (a + b + c + d)[q].kind != DuplicateRows
  {
  }

  /** The two missing-column issues are told apart by the field name in the message. */
  lemma MissingColumnsDiffer()
    ensures MissingColumn("name") != MissingColumn("score")
  {
    assert MissingColumn("name").message[17] == 'n';
    assert MissingColumn("score").message[17] == 's';
  }

  lemma FieldsDistinct()
    ensures NoDups(FIELDS)
  {
  }

  /** In a mapping laid out as the suggestion is, a field's entry is found at its position. */
  lemma FieldAt(mapping: Mapping, k: int)
    requires |mapping| == |FIELDS| && forall j :: 0 <= j < |mapping| ==> mapping[j].0 == FIELDS[j]
    requires 0 <= k < |FIELDS|
    ensures Lookup(mapping, FIELDS[k]) == mapping[k].1
  {
    FieldsDistinct();
    LookupAt(mapping, k);
  }
}
