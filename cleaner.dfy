/** The cleaning pipeline: gender and subject lookup tables, then the nine steps that turn an
 *  uploaded table into the cleaned one (trimming, gender, subject, numeric scores, percentage,
 *  missing scores, outlier flags, keep-last de-duplication, pass/fail), and the text report. */
module Cleaner {
  import opened Wrappers
  import opened Text
  import opened Seqs
  import opened Numeric
  import opened Frames

  /** The lookup key of a value: `str(value).strip().lower()`. */
  function Key(c: Cell): string { Lower(Trim(CellString(c))) }

  // ---------------------------------------------------------------------------------------------
  // Gender

  const GENDER_MAP: map<string, string> := map[
    "m" := "Male", "male" := "Male", "boy" := "Male", "b" := "Male", "man" := "Male",
    "f" := "Female", "female" := "Female", "girl" := "Female", "g" := "Female", "woman" := "Female",
    "other" := "Other", "non-binary" := "Other", "nb" := "Other", "x" := "Other"
  ]

  /** `standardize_gender`. */
  function StandardizeGender(value: Cell): (r: string)
    ensures r in {"Male", "Female", "Other", "Unknown"}
    ensures r == "Unknown" <==> value.Missing?
  {
    if value.Missing? then "Unknown"
    else
      var k := Key(value);
      if k in GENDER_MAP then GENDER_MAP[k] else "Other"
  }

  /** A present value is "Male" exactly for the male spellings and "Female" exactly for the female
   *  ones; anything unknown is "Other". */
  lemma StandardizeGenderSpec(value: Cell)
    requires !value.Missing?
    ensures StandardizeGender(value) == "Male" <==> Key(value) in {"m", "male", "boy", "b", "man"}
    ensures StandardizeGender(value) == "Female" <==> Key(value) in {"f", "female", "girl", "g", "woman"}
    ensures Key(value) !in GENDER_MAP ==> StandardizeGender(value) == "Other"
  {
    MaleKeys(Key(value));
    FemaleKeys(Key(value));
  }

  lemma MaleKeys(k: string)
    ensures k in GENDER_MAP && GENDER_MAP[k] == "Male" <==> k in {"m", "male", "boy", "b", "man"}
  {
  }

  lemma FemaleKeys(k: string)
    ensures k in GENDER_MAP && GENDER_MAP[k] == "Female" <==> k in {"f", "female", "girl", "g", "woman"}
  {
  }

  // ---------------------------------------------------------------------------------------------
  // Subjects

  /** `SUBJECT_MAP.get(key)`: the lower-case spellings of each subject, grouped by the canonical
   *  name they map to. */
  function SubjectMap(key: string): (r: Option<string>)
    ensures r.Some? ==> r.value in CANONICAL_SUBJECTS
  {
    // The spellings are grouped by their first letter so that each lookup compares few literals.
    if key == [] then None
    else if key[0] < 'h' then SubjectMapAtoG(key)
    else SubjectMapHtoS(key)
  }

  /** The spellings starting with a letter from `a` to `g`. */
  function SubjectMapAtoG(key: string): (r: Option<string>)
    requires key != []
    ensures r.Some? ==> r.value in CANONICAL_SUBJECTS
  {
    if key[0] == 'a' then
      if key == "agri" || key == "agriculture" || key == "agric" then Some("Agriculture")
      else if key == "art" || key == "art and design" || key == "art & design" then Some("Art & Design")
      else if key == "arabic" then Some("Arabic")
      else None
    else if key[0] == 'b' then
      if key == "bio" || key == "biology" then Some("Biology")
      else if key == "bus" || key == "business" || key == "business studies" then Some("Business Studies")
      else None
    else if key[0] == 'c' then
      if key == "chem" || key == "chemistry" then Some("Chemistry")
      else if key == "cre" || key == "christian religious education" || key == "c.r.e" || key == "c.r.e." then Some("CRE")
      else if key == "comp" || key == "computer" || key == "computer studies" then Some("Computer Studies")
      else None
    else if key[0] == 'e' then
      if key == "eng" || key == "english" || key == "english language" || key == "engl" then Some("English")
      else None
    else if key[0] == 'f' then
      if key == "french" || key == "fre" then Some("French")
      else None
    else if key[0] == 'g' then
      if key == "general science" then Some("Science")
      else if key == "geo" || key == "geography" || key == "geog" then Some("Geography")
      else if key == "german" then Some("German")
      else None
    else None
  }

  /** The spellings starting with a letter from `h` to `s`. */
  function SubjectMapHtoS(key: string): (r: Option<string>)
    requires key != []
    ensures r.Some? ==> r.value in CANONICAL_SUBJECTS
  {
    if key[0] == 'h' then
      if key == "hist" || key == "history" || key == "history & government" || key == "hist & gov" then Some("History")
      else if key == "home science" || key == "home sci" || key == "hs" then Some("Home Science")
      else None
    else if key[0] == 'i' then
      if key == "ire" || key == "islamic religious education" || key == "i.r.e" then Some("IRE")
      else if key == "ict" then Some("Computer Studies")
      else None
    else if key[0] == 'k' then
      if key == "kis" || key == "kiswahili" || key == "kiswa" then Some("Kiswahili")
      else None
    else if key[0] == 'm' then
      if key == "maths" || key == "math" || key == "mathematics" || key == "mat" then Some("Mathematics")
      else if key == "music" then Some("Music")
      else None
    else if key[0] == 'p' then
      if key == "phy" || key == "physics" || key == "phys" then Some("Physics")
      else if key == "pe" || key == "physical education" || key == "p.e" || key == "p.e." then Some("Physical Education")
      else None
    else if key[0] == 's' then
      if key == "swahili" then Some("Kiswahili")
      else if key == "sci" || key == "science" then Some("Science")
      else if key == "sst" || key == "social studies" || key == "s.s.t" then Some("Social Studies")
      else None
    else None
  }

  /** The canonical subject names, the values of `SUBJECT_MAP`. */
  const CANONICAL_SUBJECTS: set<string> := {
    "Mathematics", "English", "Kiswahili", "Science", "Biology", "Physics",
    "Chemistry", "History", "Geography", "CRE", "IRE", "Business Studies",
    "Agriculture", "Computer Studies", "Art & Design", "Music", "French", "German",
    "Arabic", "Home Science", "Physical Education", "Social Studies"
  }

  /** `normalize_subject`: a missing value comes back as the text "nan". */
  function NormalizeSubject(value: Cell): (r: string)
    ensures value.Missing? ==> r == "nan"
  {
    if value.Missing? then "nan"
    else
      match SubjectMap(Key(value))
      case Some(canonical) => canonical
      case None => Title(Trim(CellString(value)))
  }

  /** A name with no blank at either end whose lower-case form maps back to it is unchanged. */
  lemma FixedPoint(name: string, key: string)
    requires name != [] && !IsSpace(name[0]) && !IsSpace(name[|name| - 1])
    requires Lower(name) == key && SubjectMap(key) == Some(name)
    ensures NormalizeSubject(Str(name)) == name
  {
    TrimNoop(name);
  }

  lemma FixedMathematics() ensures NormalizeSubject(Str("Mathematics")) == "Mathematics" { FixedPoint("Mathematics", "mathematics"); }
  lemma FixedEnglish() ensures NormalizeSubject(Str("English")) == "English" { FixedPoint("English", "english"); }
  lemma FixedKiswahili() ensures NormalizeSubject(Str("Kiswahili")) == "Kiswahili" { FixedPoint("Kiswahili", "kiswahili"); }
  lemma FixedScience() ensures NormalizeSubject(Str("Science")) == "Science" { FixedPoint("Science", "science"); }
  lemma FixedBiology() ensures NormalizeSubject(Str("Biology")) == "Biology" { FixedPoint("Biology", "biology"); }
  lemma FixedPhysics() ensures NormalizeSubject(Str("Physics")) == "Physics" { FixedPoint("Physics", "physics"); }
  lemma FixedChemistry() ensures NormalizeSubject(Str("Chemistry")) == "Chemistry" { FixedPoint("Chemistry", "chemistry"); }
  lemma FixedHistory() ensures NormalizeSubject(Str("History")) == "History" { FixedPoint("History", "history"); }
  lemma FixedGeography() ensures NormalizeSubject(Str("Geography")) == "Geography" { FixedPoint("Geography", "geography"); }
  lemma FixedCRE() ensures NormalizeSubject(Str("CRE")) == "CRE" { FixedPoint("CRE", "cre"); }
  lemma FixedIRE() ensures NormalizeSubject(Str("IRE")) == "IRE" { FixedPoint("IRE", "ire"); }
  lemma FixedBusinessStudies() ensures NormalizeSubject(Str("Business Studies")) == "Business Studies" { FixedPoint("Business Studies", "business studies"); }
  lemma FixedAgriculture() ensures NormalizeSubject(Str("Agriculture")) == "Agriculture" { FixedPoint("Agriculture", "agriculture"); }
  lemma FixedComputerStudies() ensures NormalizeSubject(Str("Computer Studies")) == "Computer Studies" { FixedPoint("Computer Studies", "computer studies"); }
  lemma FixedArtDesign() ensures NormalizeSubject(Str("Art & Design")) == "Art & Design" { FixedPoint("Art & Design", "art & design"); }
  lemma FixedMusic() ensures NormalizeSubject(Str("Music")) == "Music" { FixedPoint("Music", "music"); }
  lemma FixedFrench() ensures NormalizeSubject(Str("French")) == "French" { FixedPoint("French", "french"); }
  lemma FixedGerman() ensures NormalizeSubject(Str("German")) == "German" { FixedPoint("German", "german"); }
  lemma FixedArabic() ensures NormalizeSubject(Str("Arabic")) == "Arabic" { FixedPoint("Arabic", "arabic"); }
  lemma FixedHomeScience() ensures NormalizeSubject(Str("Home Science")) == "Home Science" { FixedPoint("Home Science", "home science"); }
  lemma FixedPhysicalEducation() ensures NormalizeSubject(Str("Physical Education")) == "Physical Education" { FixedPoint("Physical Education", "physical education"); }
  lemma FixedSocialStudies() ensures NormalizeSubject(Str("Social Studies")) == "Social Studies" { FixedPoint("Social Studies", "social studies"); }

  /** Every canonical name lower-cases to a key that maps back to it, so canonical names are
   *  fixed points of the normalisation. */
  lemma CanonicalSubjectsFixed()
    ensures NormalizeSubject(Str("Mathematics")) == "Mathematics"
    ensures NormalizeSubject(Str("English")) == "English"
    ensures NormalizeSubject(Str("Kiswahili")) == "Kiswahili"
    ensures NormalizeSubject(Str("Science")) == "Science"
    ensures NormalizeSubject(Str("Biology")) == "Biology"
    ensures NormalizeSubject(Str("Physics")) == "Physics"
    ensures NormalizeSubject(Str("Chemistry")) == "Chemistry"
    ensures NormalizeSubject(Str("History")) == "History"
    ensures NormalizeSubject(Str("Geography")) == "Geography"
    ensures NormalizeSubject(Str("CRE")) == "CRE"
    ensures NormalizeSubject(Str("IRE")) == "IRE"
    ensures NormalizeSubject(Str("Business Studies")) == "Business Studies"
    ensures NormalizeSubject(Str("Agriculture")) == "Agriculture"
    ensures NormalizeSubject(Str("Computer Studies")) == "Computer Studies"
    ensures NormalizeSubject(Str("Art & Design")) == "Art & Design"
    ensures NormalizeSubject(Str("Music")) == "Music"
    ensures NormalizeSubject(Str("French")) == "French"
    ensures NormalizeSubject(Str("German")) == "German"
    ensures NormalizeSubject(Str("Arabic")) == "Arabic"
    ensures NormalizeSubject(Str("Home Science")) == "Home Science"
    ensures NormalizeSubject(Str("Physical Education")) == "Physical Education"
    ensures NormalizeSubject(Str("Social Studies")) == "Social Studies"
  {
    FixedMathematics();
    FixedEnglish();
    FixedKiswahili();
    FixedScience();
    FixedBiology();
    FixedPhysics();
    FixedChemistry();
    FixedHistory();
    FixedGeography();
    FixedCRE();
    FixedIRE();
    FixedBusinessStudies();
    FixedAgriculture();
    FixedComputerStudies();
    FixedArtDesign();
    FixedMusic();
    FixedFrench();
    FixedGerman();
    FixedArabic();
    FixedHomeScience();
    FixedPhysicalEducation();
    FixedSocialStudies();
  }

  lemma {:induction false} LowerTitleFrom(s: string, prev: bool)
    ensures Lower(TitleFrom(s, prev)) == Lower(s)
    ensures forall i :: 0 <= i < |s| ==> (IsSpace(TitleFrom(s, prev)[i]) <==> IsSpace(s[i]))
  {
    if s != [] {
      LowerTitleFrom(s[1..], IsAlpha(s[0]));
    }
  }

  lemma {:induction false} TitleFromIdempotent(s: string, prev: bool)
    ensures TitleFrom(TitleFrom(s, prev), prev) == TitleFrom(s, prev)
  {
    if s != [] {
      TitleFromIdempotent(s[1..], IsAlpha(s[0]));
    }
  }

  /** A name the map does not know comes back trimmed and title-cased, and normalizing that again
   *  changes nothing (a known name gives its canonical name, a fixed point by
   *  `CanonicalSubjectsFixed`). */
  lemma NormalizeUnknownSubjectIdempotent(value: Cell)
    requires !value.Missing? && SubjectMap(Key(value)).None?
    ensures NormalizeSubject(value) == Title(Trim(CellString(value)))
    ensures NormalizeSubject(Str(NormalizeSubject(value))) == NormalizeSubject(value)
  {
    var k := Key(value);
    var t := Trim(CellString(value));
    var u := Title(t);
    LowerTitleFrom(t, false);
    TitleFromIdempotent(t, false);
    TrimSpec(CellString(value));
    TrimNoop(u);
    assert Key(Str(u)) == Lower(u) == k;
  }

  // ---------------------------------------------------------------------------------------------
  // Column aliases of the cleaner

  const GENDER_ALIASES := ["gender", "sex", "m/f", "gen"]
  const SUBJECT_ALIASES := ["subject", "subject_name", "course"]
  const SCORE_ALIASES := ["score", "marks", "mark", "total", "total_score", "raw_score", "points", "result", "percentage"]
  const MAX_ALIASES := ["max_score", "max_marks", "total_marks", "out_of", "max", "maximum"]
  const ID_ALIASES := ["student_id", "studentid", "id", "adm_no", "reg_no"]
  const NAME_ALIASES := ["name", "student_name", "full_name"]
  const TERM_ALIASES := ["term", "semester", "exam_period"]
  const EXAM_ALIASES := ["exam_name", "assessment", "assessment_name", "exam", "exam_type", "test"]
  const YEAR_ALIASES := ["year", "academic_year", "academic year"]

  /** Whatever `_find_column` returns is a column whose normalised name is one of the aliases. */
  lemma {:induction false} FindColumnIsAlias(columns: seq<string>, aliases: seq<string>)
    ensures FindColumn(columns, aliases).Some? ==>
      FindColumn(columns, aliases).value in columns && Norm(FindColumn(columns, aliases).value) in aliases
  {
    if aliases != [] && LookupNorm(columns, aliases[0]).None? {
      FindColumnIsAlias(columns, aliases[1..]);
    }
  }

  // ---------------------------------------------------------------------------------------------
  // Cell and row helpers

  predicate IsMissing(c: Cell) { c.Missing? }

  /** The text `replace` turns back into NaN. */
  const NAN_TOKENS: set<string> := {"nan", "NaN", "", "None"}

  /** A column pandas stores as `object`: one holding some text cell. */
  predicate IsObjectColumn(rows: seq<Row>, col: string)
  {
    exists i :: 0 <= i < |rows| && Get(rows[i], col).Str?
  }

  /** A cell of an object column after `astype(str).str.strip()` and the NaN replacement. */
  function TrimCell(c: Cell): (r: Cell)
    ensures r.Missing? || r.Str?
  {
    var t := Trim(CellString(c));
    if t in NAN_TOKENS then Missing else Str(t)
  }

  /** `row` with `col` set to `c`. */
  function SetCell(row: Row, col: string, c: Cell): Row { row[col := c] }

  /** Every row with `f` applied to its `col` cell. */
  function MapColumn(rows: seq<Row>, col: string, f: Cell -> Cell): (r: seq<Row>)
    ensures |r| == |rows|
    ensures forall i :: 0 <= i < |rows| ==> r[i] == rows[i][col := f(Get(rows[i], col))]
  {
    seq(|rows|, i requires 0 <= i < |rows| => rows[i][col := f(Get(rows[i], col))])
  }

  function AddColumn(columns: seq<string>, col: string): (r: seq<string>)
    ensures forall c :: c in r <==> c in columns || c == col
  {
    if col in columns then columns else columns + [col]
  }

  function Coerce(c: Cell): Cell { CellOf(ToNumeric(c)) }
  function FillZero(c: Cell): Cell { if c.Missing? then Num(0.0) else c }

  // ---------------------------------------------------------------------------------------------
  // Step 1: whitespace

  function TrimRow(row: Row, objectCols: set<string>): Row
  {
    map c | c in row :: if c in objectCols then TrimCell(row[c]) else row[c]
  }

  /** Trims every cell of every object column and turns the NaN spellings back into missing. */
  function TrimStrings(f: Frame): (r: Frame)
    ensures r.columns == f.columns && |r.rows| == |f.rows|
  {
    var objectCols := set c | c in f.columns && IsObjectColumn(f.rows, c);
    Frame(f.columns, seq(|f.rows|, i requires 0 <= i < |f.rows| => TrimRow(f.rows[i], objectCols)))
  }

  /** After trimming, no text cell of a listed column has surrounding whitespace or is a NaN spelling. */
  lemma TrimStringsSpec(f: Frame, i: int, col: string)
    requires 0 <= i < |f.rows| && col in f.columns
    ensures var c := Get(TrimStrings(f).rows[i], col);
      c.Str? ==> Trim(c.s) == c.s && c.s !in NAN_TOKENS
  {
    var objectCols := set c | c in f.columns && IsObjectColumn(f.rows, c);
    if col in f.rows[i] && col in objectCols {
      StripIdempotent(CellString(f.rows[i][col]), WHITESPACE);
    } else if col in f.rows[i] {
      assert !Get(f.rows[i], col).Str?;
    }
  }

  // ---------------------------------------------------------------------------------------------
  // Step 5: percentage

  /** The percentage of one row once the score and max columns are numeric: the mask is "max
   *  present and positive". Setting the column to NaN comes first, so a score column that is
   *  itself named "percentage" reads as missing. */
  function PercentRow(row: Row, sc: string, mc: Option<string>): Row
  {
    match mc
    case None => row["percentage" := Get(row, sc)]
    case Some(m) =>
      var cleared := row["percentage" := Missing];
      cleared["percentage" := CellOf(DerivedPct(Get(cleared, sc), Some(Get(cleared, m))))]
  }

  lemma PercentRowSpec(row: Row, sc: string, mc: Option<string>)
    requires sc != "percentage" && (mc.Some? ==> mc.value != "percentage")
    requires Get(row, sc).Missing? || Get(row, sc).Num?
    requires mc.Some? ==> Get(row, mc.value).Missing? || Get(row, mc.value).Num?
    ensures var p := Get(PercentRow(row, sc, mc), "percentage");
      && (mc.Some? && Get(row, mc.value).Num? && Get(row, mc.value).n > 0.0 && Get(row, sc).Num? ==>
            p == Num(Round(Get(row, sc).n / Get(row, mc.value).n * 100.0, 2)))
      && (mc.None? || !Get(row, mc.value).Num? || Get(row, mc.value).n <= 0.0 ==> p == Get(row, sc))
      && (p.Missing? <==> Get(row, sc).Missing?)
  {
  }

  // ---------------------------------------------------------------------------------------------
  // Step 7: outliers

  /** `|(pct - mean) / std| > 3`; a missing percentage is never an outlier. */
  predicate IsOutlier(row: Row, mean: real, std: real)
  {
    var p := Get(row, "percentage");
    std > 0.0 && p.Num? && Abs((p.n - mean) / std) > 3.0
  }

  function FlagOutliers(rows: seq<Row>, mean: real, std: real): (r: seq<Row>)
    ensures |r| == |rows|
    ensures forall i :: 0 <= i < |rows| ==> r[i] == rows[i]["is_outlier" := Bool(IsOutlier(rows[i], mean, std))]
  {
    seq(|rows|, i requires 0 <= i < |rows| => rows[i]["is_outlier" := Bool(IsOutlier(rows[i], mean, std))])
  }

  function CountOutliers(rows: seq<Row>, mean: real, std: real): (r: nat)
    ensures r <= |rows|
  {
    if rows == [] then 0
    else CountOutliers(rows[..|rows| - 1], mean, std) + (if IsOutlier(rows[|rows| - 1], mean, std) then 1 else 0)
  }

  lemma DivCompare(a: real, s: real, k: real)
    requires s > 0.0
    ensures a / s > k <==> a > k * s
  {
    assert a / s - k == (a - k * s) / s;
  }

  /** With a positive deviation the z-score test is the distance test `|pct - mean| > 3 std`. */
  lemma OutlierIsFarFromMean(row: Row, mean: real, std: real)
    requires std > 0.0 && Get(row, "percentage").Num?
    ensures IsOutlier(row, mean, std) <==> Abs(Get(row, "percentage").n - mean) > 3.0 * std
  {
    var d := Get(row, "percentage").n - mean;
    if d < 0.0 {
      assert d / std < 0.0 by { DivCompare(-d, std, 0.0); assert (-d) / std == -(d / std); }
      assert Abs(d / std) == (-d) / std;
    } else {
      assert d / std >= 0.0 by { if d > 0.0 { DivCompare(d, std, 0.0); } }
    }
    DivCompare(Abs(d), std, 3.0);
  }

  // ---------------------------------------------------------------------------------------------
  // Step 8: keep-last de-duplication

  /** `drop_duplicates(subset=cols, keep="last")`: a row survives when no later row has its key. */
  function DropDuplicatesLast(rows: seq<Row>, cols: seq<string>): (r: seq<Row>)
    ensures |r| <= |rows|
    ensures forall x :: x in r ==> x in rows
  {
    if rows == [] then []
    else (if KeyOf(rows[0], cols) in Keys(rows[1..], cols) then [] else [rows[0]]) + DropDuplicatesLast(rows[1..], cols)
  }

  lemma KeysAppend(a: seq<Row>, b: seq<Row>, cols: seq<string>)
    ensures Keys(a + b, cols) == Keys(a, cols) + Keys(b, cols)
  {
  }

  /** No two surviving rows share a key. */
  predicate UniqueKeys(rows: seq<Row>, cols: seq<string>)
  {
    forall i, j :: 0 <= i < j < |rows| ==> KeyOf(rows[i], cols) != KeyOf(rows[j], cols)
  }

  lemma {:induction false} DropDuplicatesUnique(rows: seq<Row>, cols: seq<string>)
    ensures UniqueKeys(DropDuplicatesLast(rows, cols), cols)
  {
    if rows != [] {
      var tail := rows[1..];
      var rest := DropDuplicatesLast(tail, cols);
      DropDuplicatesUnique(tail, cols);
      var key := KeyOf(rows[0], cols);
      if key !in Keys(tail, cols) {
        var r := [rows[0]] + rest;
        assert DropDuplicatesLast(rows, cols) == r;
        forall i, j | 0 <= i < j < |r| ensures KeyOf(r[i], cols) != KeyOf(r[j], cols) {
          assert r[j] == rest[j - 1];
          if i == 0 {
            assert rest[j - 1] in rest;
            assert r[j] in tail;
            var k :| 0 <= k < |tail| && tail[k] == r[j];
            assert Keys(tail, cols)[k] == KeyOf(r[j], cols);
            assert KeyOf(r[j], cols) in Keys(tail, cols);
            assert r[0] == rows[0];
          } else {
            assert r[i] == rest[i - 1];
            assert 0 <= i - 1 < j - 1 < |rest|;
          }
        }
      } else {
        assert DropDuplicatesLast(rows, cols) == rest;
      }
    }
  }

  /** Every key of the input is the key of some surviving row. */
  lemma {:induction false} DropDuplicatesKeepsKeys(rows: seq<Row>, cols: seq<string>, i: int)
    requires 0 <= i < |rows|
    ensures KeyOf(rows[i], cols) in Keys(DropDuplicatesLast(rows, cols), cols)
  {
    var tail := rows[1..];
    var rest := DropDuplicatesLast(tail, cols);
    var pre := if KeyOf(rows[0], cols) in Keys(tail, cols) then [] else [rows[0]];
    assert DropDuplicatesLast(rows, cols) == pre + rest;
    KeysAppend(pre, rest, cols);
    var key := KeyOf(rows[i], cols);
    if i == 0 {
      if key in Keys(tail, cols) {
        var k :| 0 <= k < |tail| && Keys(tail, cols)[k] == key;
        DropDuplicatesKeepsKeys(tail, cols, k);
      } else {
        assert Keys(pre, cols) == [key];
      }
    } else {
      assert tail[i - 1] == rows[i];
      DropDuplicatesKeepsKeys(tail, cols, i - 1);
    }
  }

  /** A row whose key does not come back later survives: the last row of each key is kept. */
  lemma {:induction false} DropDuplicatesKeepsLast(rows: seq<Row>, cols: seq<string>, i: int)
    requires 0 <= i < |rows|
    requires forall j :: i < j < |rows| ==> KeyOf(rows[j], cols) != KeyOf(rows[i], cols)
    ensures rows[i] in DropDuplicatesLast(rows, cols)
  {
    var tail := rows[1..];
    var rest := DropDuplicatesLast(tail, cols);
    var pre := if KeyOf(rows[0], cols) in Keys(tail, cols) then [] else [rows[0]];
    assert DropDuplicatesLast(rows, cols) == pre + rest;
    if i > 0 {
      assert tail[i - 1] == rows[i];
      forall j | i - 1 < j < |tail| ensures KeyOf(tail[j], cols) != KeyOf(tail[i - 1], cols) {
        assert tail[j] == rows[j + 1];
      }
      DropDuplicatesKeepsLast(tail, cols, i - 1);
    }
  }

  /** Two rows whose keys differ, each the last with its key, are both kept: rows that differ only
   *  in exam name are kept when the exam column is a key. */
  lemma DistinctKeysBothKept(a: Row, b: Row, cols: seq<string>)
    requires KeyOf(a, cols) != KeyOf(b, cols)
    ensures DropDuplicatesLast([a, b], cols) == [a, b]
  {
    var rows := [a, b];
    assert rows[1..] == [b];
    assert Keys([b], cols) == [KeyOf(b, cols)];
    assert [b][1..] == [];
  }

  /** The de-duplication key columns of step 8, in the order the source appends them. */
  function DedupColumns(columns: seq<string>, subjectCol: Option<string>, scoreCol: Option<string>): seq<string>
  {
    var idCol := FindColumn(columns, ID_ALIASES);
    var nameCol := FindColumn(columns, NAME_ALIASES);
    var termCol := FindColumn(columns, TERM_ALIASES);
    var examCol := FindColumn(columns, EXAM_ALIASES);
    var yearCol := FindColumn(columns, YEAR_ALIASES);
    var d0 := if idCol.Some? then [idCol.value] else if nameCol.Some? then [nameCol.value] else [];
    var d1 := d0 + OptCol(subjectCol) + OptCol(termCol);
    var d2 := if examCol.Some? && examCol.value !in d1 then d1 + [examCol.value] else d1;
    var d3 := if yearCol.Some? && yearCol.value !in d2 then d2 + [yearCol.value] else d2;
    if scoreCol.Some? && scoreCol.value !in d3 then d3 + [scoreCol.value] else d3
  }

  // ---------------------------------------------------------------------------------------------
  // Step 9: pass/fail

  function PassFail(pct: Cell, passMark: int): (r: string)
    ensures r == "Pass" <==> pct.Num? && pct.n >= passMark as real
    ensures r == "Fail" <==> pct.Num? && pct.n < passMark as real
    ensures r == "N/A" <==> !pct.Num?
  {
    if pct.Num? && pct.n >= passMark as real then "Pass"
    else if pct.Num? then "Fail"
    else "N/A"
  }

  // ---------------------------------------------------------------------------------------------
  // The pipeline

  datatype CleaningReport = CleaningReport(
    originalRows: nat, originalColumns: nat,
    steps: seq<string>, warnings: seq<string>,
    cleanedRows: nat, cleanedColumns: nat, columns: seq<string>)

  const TRIM_STEP := "Trimmed whitespace from all string fields."

  function StandardizeCell(c: Cell): Cell { Str(StandardizeGender(c)) }
  function NormalizeCell(c: Cell): Cell { Str(NormalizeSubject(c)) }

  /** The original subject values that the map rewrites (`normalized_count`). */
  predicate IsSubjectVariant(c: Cell)
  {
    var t := Trim(CellString(c));
    SubjectMap(Lower(t)).Some? && SubjectMap(Lower(t)).value != t
  }

  /** Present cells that `to_numeric` cannot read. */
  predicate IsParseError(c: Cell) { !c.Missing? && ToNumeric(c).None? }

  function PassFailRow(row: Row, passMark: int): Row
  {
    row["pass_fail" := Str(PassFail(Get(row, "percentage"), passMark))]
  }

  lemma {:induction false} FindColumnSomeIf(columns: seq<string>, aliases: seq<string>, k: int)
    requires 0 <= k < |aliases| && LookupNorm(columns, aliases[k]).Some?
    ensures FindColumn(columns, aliases).Some?
  {
    if k > 0 && LookupNorm(columns, aliases[0]).None? {
      FindColumnSomeIf(columns, aliases[1..], k - 1);
    }
  }

  /** "percentage" is a score alias, so a table with that column always has a score column. */
  lemma PercentageIsScoreColumn(columns: seq<string>)
    requires "percentage" in columns
    ensures FindColumn(columns, SCORE_ALIASES).Some?
  {
    TrimNoop("percentage");
    assert Norm("percentage") == "percentage";
    var j := IndexOf(columns, "percentage");
    assert Norm(columns[j]) == "percentage";
    LookupNormSpec(columns, "percentage");
    assert LookupNorm(columns, SCORE_ALIASES[8]).Some?;
    FindColumnSomeIf(columns, SCORE_ALIASES, 8);
  }

  /** What one step of `clean_dataframe` leaves behind: the table and the step and warning texts
   *  it appends to the report. */
  datatype Stage = Stage(frame: Frame, steps: seq<string>, warnings: seq<string>)

  /** A cell `to_numeric` has produced. */
  predicate IsNumeric(c: Cell) { c.Missing? || c.Num? }

  /** Step 1: trim the text columns. */
  function TrimStage(f: Frame): (r: Stage)
    ensures r.frame.columns == f.columns && |r.frame.rows| == |f.rows|
  {
    Stage(TrimStrings(f), [TRIM_STEP], [])
  }

  /** Step 2: every cell of the gender column becomes one of the four standard values. */
  function GenderStage(f: Frame): (r: Stage)
    ensures r.frame.columns == f.columns && |r.frame.rows| == |f.rows| && r.warnings == []
    ensures FindColumn(f.columns, GENDER_ALIASES).Some? ==>
      forall i :: 0 <= i < |f.rows| ==>
        var c := Get(r.frame.rows[i], FindColumn(f.columns, GENDER_ALIASES).value);
        c.Str? && c.s in {"Male", "Female", "Other", "Unknown"}
    ensures FindColumn(f.columns, GENDER_ALIASES).None? ==> r == Stage(f, [], [])
  {
    match FindColumn(f.columns, GENDER_ALIASES)
    case None => Stage(f, [], [])
    case Some(g) =>
      var rows := MapColumn(f.rows, g, StandardizeCell);
      var text := "Standardized gender values: " + ListRepr(PresentUnique(f.rows, g)) + " \U{2192} " + ListRepr(Distinct(Column(rows, g)));
      Stage(Frame(f.columns, rows), [text], [])
  }

  /** Step 3: every cell of the subject column is normalised. */
  function SubjectStage(f: Frame): (r: Stage)
    ensures r.frame.columns == f.columns && |r.frame.rows| == |f.rows| && r.warnings == []
    ensures FindColumn(f.columns, SUBJECT_ALIASES).Some? ==>
      forall i :: 0 <= i < |f.rows| ==>
        var col := FindColumn(f.columns, SUBJECT_ALIASES).value;
        Get(r.frame.rows[i], col) == Str(NormalizeSubject(Get(f.rows[i], col)))
    ensures FindColumn(f.columns, SUBJECT_ALIASES).None? ==> r == Stage(f, [], [])
  {
    match FindColumn(f.columns, SUBJECT_ALIASES)
    case None => Stage(f, [], [])
    case Some(col) =>
      var rows := MapColumn(f.rows, col, NormalizeCell);
      Stage(Frame(f.columns, rows), [SubjectStep(f.rows, rows, col)], [])
  }

  /** The step's text: how many distinct spellings were variants, and the subjects found after. */
  function SubjectStep(before: seq<Row>, after: seq<Row>, col: string): string
  {
    "Normalized " + IntToString(CountWhere(PresentUnique(before, col), IsSubjectVariant))
    + " subject name variants. Subjects found: " + ListRepr(PresentUnique(after, col))
  }

  /** Step 4: the score and max columns hold only numbers and missing values afterwards. */
  function ScoreStage(f: Frame, scoreCol: Option<string>, maxCol: Option<string>): (r: Stage)
    ensures r.frame.columns == f.columns && |r.frame.rows| == |f.rows|
    ensures scoreCol.Some? ==> forall i :: 0 <= i < |f.rows| ==> IsNumeric(Get(r.frame.rows[i], scoreCol.value))
    ensures maxCol.Some? ==> forall i :: 0 <= i < |f.rows| ==> IsNumeric(Get(r.frame.rows[i], maxCol.value))
    ensures scoreCol.None? ==> r.steps == [] && r.warnings == []
  {
    var scored := if scoreCol.Some? then MapColumn(f.rows, scoreCol.value, Coerce) else f.rows;
    var rows := if maxCol.Some? then MapColumn(scored, maxCol.value, Coerce) else scored;
    if scoreCol.None? then Stage(Frame(f.columns, rows), [], [])
    else
      var parseErrors := CountWhere(Column(f.rows, scoreCol.value), IsParseError);
      var warnings := if parseErrors > 0 then [IntToString(parseErrors) + " score values could not be converted to numbers."] else [];
      Stage(Frame(f.columns, rows), ["Converted scores to numeric."], warnings)
  }

  /** Step 5: a score column adds the "percentage" column, row by row as `PercentRow` says. */
  function PercentStage(f: Frame, scoreCol: Option<string>, maxCol: Option<string>): (r: Stage)
    ensures r.frame.columns == if scoreCol.Some? then AddColumn(f.columns, "percentage") else f.columns
    ensures |r.frame.rows| == |f.rows| && r.warnings == []
    ensures scoreCol.Some? ==> forall i :: 0 <= i < |f.rows| ==> r.frame.rows[i] == PercentRow(f.rows[i], scoreCol.value, maxCol)
  {
    if scoreCol.None? then Stage(f, [], [])
    else
      var rows := seq(|f.rows|, i requires 0 <= i < |f.rows| => PercentRow(f.rows[i], scoreCol.value, maxCol));
      var text := if maxCol.Some? then "Computed percentage from score / max_score." else "Using score as percentage (no max_score column found).";
      Stage(Frame(AddColumn(f.columns, "percentage"), rows), [text], [])
  }

  /** Step 6: missing scores are either filled with 0 (score and percentage) or reported. */
  function MissingStage(f: Frame, scoreCol: Option<string>, treatMissingAsZero: bool): (r: Stage)
    ensures r.frame.columns == f.columns && |r.frame.rows| == |f.rows|
    ensures scoreCol.Some? && treatMissingAsZero ==>
      forall i :: 0 <= i < |f.rows| ==> !Get(r.frame.rows[i], scoreCol.value).Missing?
    ensures scoreCol.None? || !treatMissingAsZero ==> r.frame == f
  {
    if scoreCol.None? then Stage(f, [], [])
    else
      var column := Column(f.rows, scoreCol.value);
      var missing := CountWhere(column, IsMissing);
      if missing == 0 then
        CountWhereZero(column, IsMissing);
        Stage(f, [], [])
      else if treatMissingAsZero then
        var rows := MapColumn(MapColumn(f.rows, scoreCol.value, FillZero), "percentage", FillZero);
        Stage(Frame(f.columns, rows), ["Treated " + IntToString(missing) + " missing scores as 0."], [])
      else
        Stage(f, ["Flagged " + IntToString(missing) + " missing scores (not treated as 0)."],
          [IntToString(missing) + " rows have missing scores. They will be excluded from aggregations."])
  }

  /** Step 7: with more than two percentages and a positive spread, rows more than three standard
   *  deviations from the mean gain `is_outlier`; no row is removed. */
  function OutlierStage(f: Frame, disp: Dispersion): (r: Stage)
    requires Lawful(disp)
    ensures r.frame.columns == f.columns || r.frame.columns == AddColumn(f.columns, "is_outlier")
    ensures |r.frame.rows| == |f.rows|
  {
    var pct := Numbers(Column(f.rows, "percentage"));
    if "percentage" !in f.columns || |pct| <= 2 then Stage(f, [], [])
    else
      var mean := MeanOf(pct);
      var std := SampleStd(pct, disp).value;
      var outliers := if std > 0.0 then CountOutliers(f.rows, mean, std) else 0;
      if outliers == 0 then Stage(f, [], [])
      else
        Stage(Frame(AddColumn(f.columns, "is_outlier"), FlagOutliers(f.rows, mean, std)),
          ["Detected " + IntToString(outliers) + " outliers via z-score."],
          [IntToString(outliers) + " potential outliers detected (|z-score| > 3). Flagged but not removed."])
  }

  /** Step 8: keep the last row of each key; afterwards no two rows share a key. */
  function DedupStage(f: Frame, subjectCol: Option<string>, scoreCol: Option<string>): (r: Stage)
    ensures r.frame.columns == f.columns && |r.frame.rows| <= |f.rows| && r.warnings == []
    ensures DedupColumns(f.columns, subjectCol, scoreCol) != [] ==>
      UniqueKeys(r.frame.rows, DedupColumns(f.columns, subjectCol, scoreCol))
  {
    var cols := DedupColumns(f.columns, subjectCol, scoreCol);
    if cols == [] then Stage(f, [], [])
    else
      var rows := DropDuplicatesLast(f.rows, cols);
      DropDuplicatesUnique(f.rows, cols);
      var removed := |f.rows| - |rows|;
      var text := if removed > 0 then "Removed " + IntToString(removed) + " duplicate rows using keys: " + ListRepr(StrCells(cols)) + "." else "No duplicate rows found.";
      Stage(Frame(f.columns, rows), [text], [])
  }

  /** Every row carries the pass/fail label of its percentage. */
  predicate PassFailLabelled(rows: seq<Row>, passMark: int)
  {
    forall i :: 0 <= i < |rows| ==> Get(rows[i], "pass_fail") == Str(PassFail(Get(rows[i], "percentage"), passMark))
  }

  /** Step 9: with a percentage column every row gets its pass/fail label. */
  function PassFailStage(f: Frame, passMark: int): (r: Stage)
    ensures r.frame.columns == if "percentage" in f.columns then AddColumn(f.columns, "pass_fail") else f.columns
    ensures |r.frame.rows| == |f.rows| && r.warnings == []
    ensures "percentage" in f.columns ==> PassFailLabelled(r.frame.rows, passMark)
  {
    if "percentage" !in f.columns then Stage(f, [], [])
    else
      var rows := seq(|f.rows|, i requires 0 <= i < |f.rows| => PassFailRow(f.rows[i], passMark));
      Stage(Frame(AddColumn(f.columns, "pass_fail"), rows), ["Computed pass/fail using pass mark of " + IntToString(passMark) + "%."], [])
  }

  /** Steps 1 to 6: the table with numeric scores and, when a score column is found, a percentage
   *  column; no row is removed. */
  function Prepare(df: Frame, treatMissingAsZero: bool): (r: Stage)
    ensures r.frame.columns == if FindColumn(df.columns, SCORE_ALIASES).Some? then AddColumn(df.columns, "percentage") else df.columns
    ensures |r.frame.rows| == |df.rows|
    ensures |r.steps| >= 1 && r.steps[0] == TRIM_STEP
  {
    // Steps 1 to 3 keep the columns, so the columns found on the cleaned table are those of `df`.
    var scoreCol := FindColumn(df.columns, SCORE_ALIASES);
    var maxCol := FindColumn(df.columns, MAX_ALIASES);
    var s1 := TrimStage(df);
    var s2 := GenderStage(s1.frame);
    var s3 := SubjectStage(s2.frame);
    var s4 := ScoreStage(s3.frame, scoreCol, maxCol);
    var s5 := PercentStage(s4.frame, scoreCol, maxCol);
    var s6 := MissingStage(s5.frame, scoreCol, treatMissingAsZero);
    Stage(s6.frame,
      s1.steps + s2.steps + s3.steps + s4.steps + s5.steps + s6.steps,
      s1.warnings + s2.warnings + s3.warnings + s4.warnings + s5.warnings + s6.warnings)
  }

  /** `clean_dataframe` as a value: the nine steps in order, the report collecting their step and
   *  warning texts. */
  function Clean(df: Frame, passMark: int, treatMissingAsZero: bool, disp: Dispersion): (Frame, CleaningReport)
    requires Lawful(disp)
  {
    var p := Prepare(df, treatMissingAsZero);
    var s7 := OutlierStage(p.frame, disp);
    var s8 := DedupStage(s7.frame, FindColumn(df.columns, SUBJECT_ALIASES), FindColumn(df.columns, SCORE_ALIASES));
    var s9 := PassFailStage(s8.frame, passMark);
    var cleaned := s9.frame;
    (cleaned, CleaningReport(|df.rows|, |df.columns|,
      p.steps + s7.steps + s8.steps + s9.steps, p.warnings + s7.warnings + s8.warnings + s9.warnings,
      |cleaned.rows|, |cleaned.columns|, cleaned.columns))
  }

  /** `clean_dataframe`: the table is rewritten step by step while the step and warning texts
   *  accumulate. */
  method CleanDataframe(df: Frame, passMark: int, treatMissingAsZero: bool, disp: Dispersion)
    returns (cleaned: Frame, report: CleaningReport)
    requires Lawful(disp)
    ensures (cleaned, report) == Clean(df, passMark, treatMissingAsZero, disp)
  {
    var scoreCol := FindColumn(df.columns, SCORE_ALIASES);
    var maxCol := FindColumn(df.columns, MAX_ALIASES);
    var subjectCol := FindColumn(df.columns, SUBJECT_ALIASES);
    var s := TrimStage(df);
    var steps, warnings := s.steps, s.warnings;
    s := GenderStage(s.frame);
    steps, warnings := steps + s.steps, warnings + s.warnings;
    s := SubjectStage(s.frame);
    steps, warnings := steps + s.steps, warnings + s.warnings;
    s := ScoreStage(s.frame, scoreCol, maxCol);
    steps, warnings := steps + s.steps, warnings + s.warnings;
    s := PercentStage(s.frame, scoreCol, maxCol);
    steps, warnings := steps + s.steps, warnings + s.warnings;
    s := MissingStage(s.frame, scoreCol, treatMissingAsZero);
    steps, warnings := steps + s.steps, warnings + s.warnings;
    assert Stage(s.frame, steps, warnings) == Prepare(df, treatMissingAsZero);
    s := OutlierStage(s.frame, disp);
    steps, warnings := steps + s.steps, warnings + s.warnings;
    s := DedupStage(s.frame, subjectCol, scoreCol);
    steps, warnings := steps + s.steps, warnings + s.warnings;
    s := PassFailStage(s.frame, passMark);
    steps, warnings := steps + s.steps, warnings + s.warnings;
    cleaned := s.frame;
    report := CleaningReport(|df.rows|, |df.columns|, steps, warnings, |cleaned.rows|, |cleaned.columns|, cleaned.columns);
  }

  /** The report describes the table: its counts before and after, the columns, the trimming step
   *  first; rows are only ever removed and every original column survives. */
  lemma CleanShape(df: Frame, passMark: int, treatMissingAsZero: bool, disp: Dispersion)
    requires Lawful(disp)
    ensures var (cleaned, report) := Clean(df, passMark, treatMissingAsZero, disp);
      && report.originalRows == |df.rows| && report.originalColumns == |df.columns|
      && report.cleanedRows == |cleaned.rows| && report.cleanedColumns == |cleaned.columns|
      && report.columns == cleaned.columns
      && |cleaned.rows| <= |df.rows|
      && |report.steps| >= 1 && report.steps[0] == TRIM_STEP
      && (forall c :: c in df.columns ==> c in cleaned.columns)
  {
    var p := Prepare(df, treatMissingAsZero);
    FinishKeepsColumns(p.frame, passMark, disp, FindColumn(df.columns, SUBJECT_ALIASES), FindColumn(df.columns, SCORE_ALIASES));
    assert forall c :: c in df.columns ==> c in p.frame.columns;
  }

  /** Steps 7 to 9 keep every column and never add rows. */
  lemma FinishKeepsColumns(f: Frame, passMark: int, disp: Dispersion, subjectCol: Option<string>, scoreCol: Option<string>)
    requires Lawful(disp)
    ensures var s9 := PassFailStage(DedupStage(OutlierStage(f, disp).frame, subjectCol, scoreCol).frame, passMark);
      && |s9.frame.rows| <= |f.rows|
      && (forall c :: c in f.columns ==> c in s9.frame.columns)
  {
    var s7 := OutlierStage(f, disp);
    assert forall c :: c in f.columns ==> c in s7.frame.columns;
  }

  /** Steps 7 to 9 keep the percentage column, and label every row when it is there. */
  lemma FinishKeepsPercentage(f: Frame, passMark: int, disp: Dispersion, subjectCol: Option<string>, scoreCol: Option<string>)
    requires Lawful(disp)
    ensures var s9 := PassFailStage(DedupStage(OutlierStage(f, disp).frame, subjectCol, scoreCol).frame, passMark);
      && ("percentage" in s9.frame.columns <==> "percentage" in f.columns)
      && ("percentage" in f.columns ==> "pass_fail" in s9.frame.columns && PassFailLabelled(s9.frame.rows, passMark))
  {
    var s8 := DedupStage(OutlierStage(f, disp).frame, subjectCol, scoreCol);
    assert "percentage" in s8.frame.columns <==> "percentage" in f.columns;
  }

  /** The cleaned table has a percentage column exactly when the input has a score column; it then
   *  also has a pass/fail label on every row. */
  lemma CleanPercentage(df: Frame, passMark: int, treatMissingAsZero: bool, disp: Dispersion)
    requires Lawful(disp)
    ensures var (cleaned, _) := Clean(df, passMark, treatMissingAsZero, disp);
      && ("percentage" in cleaned.columns <==> FindColumn(df.columns, SCORE_ALIASES).Some?)
      && ("percentage" in cleaned.columns ==> "pass_fail" in cleaned.columns && PassFailLabelled(cleaned.rows, passMark))
  {
    var p := Prepare(df, treatMissingAsZero);
    FinishKeepsPercentage(p.frame, passMark, disp, FindColumn(df.columns, SUBJECT_ALIASES), FindColumn(df.columns, SCORE_ALIASES));
    if "percentage" in df.columns {
      PercentageIsScoreColumn(df.columns);
    }
  }

  /** After missing-as-zero filling, no score and no percentage is missing. */
  lemma FillZeroLeavesNoMissing(rows: seq<Row>, scoreCol: string, i: int)
    requires 0 <= i < |rows|
    ensures var r := MapColumn(MapColumn(rows, scoreCol, FillZero), "percentage", FillZero);
      !Get(r[i], scoreCol).Missing? && !Get(r[i], "percentage").Missing?
  {
  }

  /** Outliers are flagged, never removed: every row is kept and only gains the flag. */
  lemma FlagOutliersKeepsRows(rows: seq<Row>, mean: real, std: real, i: int, col: string)
    requires 0 <= i < |rows| && col != "is_outlier"
    ensures |FlagOutliers(rows, mean, std)| == |rows|
    ensures Get(FlagOutliers(rows, mean, std)[i], col) == Get(rows[i], col)
    ensures Get(FlagOutliers(rows, mean, std)[i], "is_outlier") == Bool(IsOutlier(rows[i], mean, std))
  {
  }

  // ---------------------------------------------------------------------------------------------
  // `generate_cleaning_report`

  function StepLine(i: nat, step: string): string { "  " + IntToString(i + 1) + ". " + step }
  function WarningLine(w: string): string { "  \U{2022} " + w }

  const WARNINGS_HEADER := "\U{26A0} Warnings:"

  /** The five lines before the steps: title, original and cleaned sizes, a blank, the heading. */
  function ReportHeader(report: CleaningReport): (r: seq<string>)
    ensures |r| == 5
  {
    ["\U{2550}\U{2550}\U{2550} Data Cleaning Report \U{2550}\U{2550}\U{2550}",
     "Original: " + IntToString(report.originalRows) + " rows \U{00D7} " + IntToString(report.originalColumns) + " columns",
     "Cleaned:  " + IntToString(report.cleanedRows) + " rows \U{00D7} " + IntToString(report.cleanedColumns) + " columns",
     "",
     "Steps performed:"]
  }

  function StepLines(steps: seq<string>): (r: seq<string>)
    ensures |r| == |steps|
  {
    seq(|steps|, i requires 0 <= i < |steps| => StepLine(i, steps[i]))
  }

  function WarningSection(warnings: seq<string>): (r: seq<string>)
    ensures |r| == if warnings == [] then 0 else 2 + |warnings|
  {
    if warnings == [] then []
    else ["", WARNINGS_HEADER] + WarningLines(warnings)
  }

  /** One line per warning. */
  function WarningLines(warnings: seq<string>): (r: seq<string>)
    ensures |r| == |warnings| && forall i :: 0 <= i < |r| ==> r[i] == WarningLine(warnings[i])
  {
    seq(|warnings|, i requires 0 <= i < |warnings| => WarningLine(warnings[i]))
  }

  /** The report's lines: the header, the steps numbered from 1, and a warnings section only
   *  when there are warnings. */
  function ReportLines(report: CleaningReport): seq<string>
  {
    ReportHeader(report) + StepLines(report.steps) + WarningSection(report.warnings)
  }

  /** `generate_cleaning_report`: the lines are appended in loops, then joined by newlines. */
  method GenerateCleaningReport(report: CleaningReport) returns (text: string)
    ensures text == Join("\n", ReportLines(report))
  {
    var lines := ReportHeader(report);
    lines := AppendSteps(lines, report.steps);
    lines := AppendWarnings(lines, report.warnings);
    text := Join("\n", lines);
  }

  /** The loop over the steps: one numbered line each. */
  method AppendSteps(lines: seq<string>, steps: seq<string>) returns (out: seq<string>)
    ensures out == lines + StepLines(steps)
  {
    out := lines;
    var i := 0;
    while i < |steps|
      invariant 0 <= i <= |steps|
      invariant out == lines + StepLines(steps)[..i]
    {
      assert StepLines(steps)[..i + 1] == StepLines(steps)[..i] + [StepLine(i, steps[i])];
      out := out + [StepLine(i, steps[i])];
      i := i + 1;
    }
    assert StepLines(steps)[..i] == StepLines(steps);
  }

  /** The warnings section: nothing without warnings, else a blank, the header and one line each. */
  method AppendWarnings(lines: seq<string>, warnings: seq<string>) returns (out: seq<string>)
    ensures out == lines + WarningSection(warnings)
  {
    out := lines;
    if warnings != [] {
      var head := lines + ["", WARNINGS_HEADER];
      out := head;
      var k := 0;
      while k < |warnings|
        invariant 0 <= k <= |warnings|
        invariant out == head + WarningLines(warnings)[..k]
      {
        assert WarningLines(warnings)[..k + 1] == WarningLines(warnings)[..k] + [WarningLine(warnings[k])];
        out := out + [WarningLine(warnings[k])];
        k := k + 1;
      }
      assert WarningLines(warnings)[..k] == WarningLines(warnings);
    }
  }

  /** Step `i` is on line `5 + i`, numbered `i + 1`; the warnings section, a blank line, the
   *  header and one line per warning, follows only when there are warnings. */
  lemma ReportLinesSpec(report: CleaningReport)
    ensures var n := 5 + |report.steps|;
      && |ReportLines(report)| == n + (if report.warnings == [] then 0 else 2 + |report.warnings|)
      && (forall i :: 0 <= i < |report.steps| ==> ReportLines(report)[5 + i] == StepLine(i, report.steps[i]))
      && (report.warnings != [] ==>
            && ReportLines(report)[n] == ""
            && ReportLines(report)[n + 1] == WARNINGS_HEADER
            && forall k :: 0 <= k < |report.warnings| ==> ReportLines(report)[n + 2 + k] == WarningLine(report.warnings[k]))
  {
  }

}
