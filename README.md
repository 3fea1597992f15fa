# EduMetrics analytics core in Dafny

EduMetrics takes a school's assessment sheet (one row per student, subject and term, or one row
per student with a column per subject), cleans it and analyses it. The result is descriptive
statistics, a per-student risk score, group-gap analyses and a list of rule-based insights with
an executive summary. These feed the PDF report cards and the Excel export.

This project models that pipeline and proves properties of it. There is one Dafny module per
source file, and every module works over the same table model (`Frames`).

- **The table** (`frame.dfy`). A table is its column names plus rows that map a column to a cell.
  A cell is missing (None, NaN, infinity), boolean, numeric or text. This file also holds the
  column matchers `_find_col` and `_find_column`, `pd.to_numeric(errors="coerce")`, `astype(str)`,
  and the ascending key order of `groupby`.
- **Grading** (`grading.dfy`). Universal A–F bands with clamping, the band legend, the mean grade,
  and the calendar order of term labels (`sort_terms`).
- **Cleaning** (`cleaner.dfy`). Gender and subject lookup tables, and the nine cleaning steps with
  their report. The whole pipeline is a specification function `Clean`, built from one function
  per step. The method `CleanDataframe` performs the steps one by one and is proved equal to it.
- **Ingest** (`parser.dfy`, `upload.dfy`).
  - Layout detection, column suggestion, the wide-to-long melt and data validation.
  - The resolution of a source column chosen for several fields; the rename maps.
  - The session table and its expiry, and the accepted file extensions.
- **Statistics** (`stats.dfy`, `terms.dfy`). The school overview, subject statistics with
  correlation-pair selection, the student profile, and the term comparison (canonical labels,
  deltas and trends, improver counts, exam-phase order).
- **Risk** (`risk.dfy`). Five weighted factors, the level, the recommendation, then the filtered,
  sorted and counted at-risk list.
- **Gaps** (`gaps.dfy`). Gender, class, regional and term gaps; Cohen's d and its label;
  eta-squared; best and worst groups.
- **Insights and prose** (`insights.dfy`, `narrative.dfy`, `ai_insights.dfy`).
  - Every insight rule, the severity sort and the counts.
  - The sentence templates and the executive summary.
  - The parent summary's deterministic metrics and its fail-closed AI fallback.
- **Presentation rules** (`report_builder.dfy`, `reports.dfy`).
  - The class/stream split, the score bands and the places that use them, the teacher's remark,
    the best and weakest subject, and the 12-row subject table.
  - The file-name token, the school-name resolution and the class-row filter of the report routes.
- **Shared helpers** (`wrappers.dfy`, `text.dfy`, `seqs.dfy`, `numeric.dfy`).
  - `Option`, ASCII string functions, and a stable insertion sort proved sorted, a permutation
    and stable.
  - Exact real arithmetic: sums, means, round-half-even and the least-squares slope.

Numbers are exact reals. The square root and the variance are a `Dispersion` parameter that obeys
a few laws (non-negative, zero exactly for constant data). The results of scipy's tests (t, F, p
and r) are inputs. Loops that change state in the source are methods with loop invariants, each
proved equal to a specification function. The session table is a class.

## Model

| member | source | states |
|---|---|---|
| Frames.NumOf | backend/core/cleaner.py:150-165 | a coerced cell has a value exactly when it is a number |
| Frames.ToNumeric | backend/core/cleaner.py:150 | coercion leaves a number as it is and a missing cell missing |
| Frames.ParseUnsignedOfDigits | backend/core/cleaner.py:150 | a run of digits reads as the number it spells |
| Frames.ParseIntToString | backend/core/cleaner.py:150 | a whole number written out and coerced back is the same number |
| Frames.ParseNegative | backend/core/cleaner.py:150 | the same for a negative number, whose text starts with "-" |
| Frames.ParseDigits | backend/core/cleaner.py:150 | a run of digits, as a whole cell, coerces to the number it spells |
| Frames.ParseMinus | backend/core/cleaner.py:150 | a minus sign before an unsigned number coerces to the negated number |
| Frames.ParsePointDigits | backend/core/cleaner.py:150 | a decimal fraction `digits.digits` reads as its value |
| Frames.ParseScientific | backend/core/cleaner.py:150 | scientific notation `digits e digits` reads as the mantissa times ten to the exponent |
| Frames.NumToStringOfInt | backend/core/cleaner.py:106 | an integral value is written as the integer |
| Frames.LastIndexWithNorm | backend/core/stats.py:49 | the index found is -1 or a column whose trimmed lower-case name is the key |
| Frames.LastIndexWithNormSpec | backend/core/stats.py:49 | no later column normalises to the key, as the later entry of the dictionary comprehension wins |
| Frames.LookupNorm | backend/core/stats.py:49-51 | a column found is a column of the table whose normalised name is the key |
| Frames.LookupNormSpec | backend/core/stats.py:49-51 | the lookup fails exactly when no column normalises to the key |
| Frames.AliasShift | backend/core/stats.py:50-51 | alias k of a list is alias k - 1 of its tail |
| Frames.FirstAliasShift | backend/core/stats.py:50-51 | after an unmatched head, the first matching alias of the tail is the first matching alias of the list |
| Frames.FindColSpec | backend/core/stats.py:47-53 | nothing is found exactly when no lower-cased alias matches; otherwise the result is the column of the first matching alias in list order |
| Frames.FindColumnIn | backend/core/cleaner.py:297-303 | the cleaner's matcher returns one of the table's columns |
| Frames.FindColumnSpec | backend/core/cleaner.py:297-303 | the same, with the aliases compared as written, not lower-cased |
| Frames.FindColumnAgrees | backend/core/cleaner.py:297-303 | where every alias is already lower case, the cleaner's matcher agrees with the shared one |
| Frames.LaterColumnWins | backend/core/stats.py:49-52 | when two columns normalise alike, the later one is returned |
| Frames.Column | backend/core/stats.py:119 | a column has one cell per row, the row's cell under that name |
| Frames.Numbers | backend/core/stats.py:86 | `dropna()` keeps one value per present number and no more |
| Frames.NumbersAppend | backend/core/stats.py:86 | the present numbers of two concatenated parts are the concatenation of their present numbers |
| Frames.NumbersWithin | backend/core/stats.py:86 | bounds on the cells carry over to the present numbers |
| Frames.Keys | backend/core/cleaner.py:247 | one key per row, in row order |
| Frames.RowsWhere | backend/core/stats.py:295 | selecting rows never adds rows |
| Frames.RowsWhereSpec | backend/core/stats.py:295 | the selected rows are exactly the rows whose cell equals the key |
| Frames.PresentUnique | backend/core/cleaner.py:119-129 | `dropna().unique()` holds each present value of the column exactly once |
| Frames.StrLeTotal | backend/core/stats.py:220 | text keys are totally ordered by code points |
| Frames.StrLeTrans | backend/core/stats.py:220 | the order on text keys is transitive |
| Frames.StrLeAntisym | backend/core/stats.py:220 | the order on text keys is antisymmetric |
| Frames.StrLeTotalPreorder | backend/core/stats.py:220 | the order on text keys is a total preorder |
| Frames.CellLeTotalPreorder | backend/core/stats.py:220 | the order on group keys (numbers before text) is a total preorder |
| Frames.CellLeAntisym | backend/core/stats.py:220 | two keys ordered both ways are equal |
| Frames.GroupKeys | backend/core/stats.py:220 | `groupby` visits every present value exactly once, in ascending order |
| Frames.EnsurePercentageSpec | backend/core/stats.py:56-75 | an existing "percentage" column is coerced; otherwise with a score column the percentage is score / max × 100 rounded to two places where the max is present and positive, else the score; without a score column the table is unchanged |
| Frames.EnsurePercentage | backend/core/stats.py:56-75 | the row count is kept |
| Frames.PctsAppend | backend/core/stats.py:86 | the present percentages of two concatenated parts are the concatenation of theirs |
| Grading.Clamp | backend/core/kenya_grading.py:42 | the clamped value lies in [0, 100], and a value already in range is unchanged |
| Grading.ClampScore | backend/core/kenya_grading.py:35-42 | None exactly for a missing or unparseable score; otherwise the parsed value clamped into [0, 100] |
| Grading.FirstBand | backend/core/kenya_grading.py:61-62 | a band found is one of the list whose minimum the value reaches; none is found exactly when the value is below every minimum |
| Grading.FirstBandIsBandOf | backend/core/kenya_grading.py:16-23 | for any clamped value the search finds the band named by the 80/70/60/50/40/0 thresholds, so the fallback after the loop is never reached (also lines 61-71) |
| Grading.UniversalGradeSpec | backend/core/kenya_grading.py:55-69 | a missing score gives "-" with 0 points; a present one gets the band of its clamped value and reports that value rounded to one place, inside [0, 100] |
| Grading.GradeLabelThresholds | backend/core/kenya_grading.py:16-23 | the label is A/B/C/D/E/F exactly on [80,100], [70,80), [60,70), [50,60), [40,50), below 40, and the points lie in 1..6 (also lines 74-81) |
| Grading.OutOfRangeGetsAOrF | backend/core/kenya_grading.py:35-69 | a score above 100 gets A with 6 points and one below 0 gets F with 1 point, never an error |
| Grading.GradePointsMonotone | backend/core/kenya_grading.py:16-23 | grade points never fall as the score rises (also lines 61-69) |
| Grading.PointsOfNumber | backend/core/kenya_grading.py:79-81 | the points of a number are those of the band of its clamped value |
| Grading.GetAllGradeThresholds | backend/core/kenya_grading.py:94-108 | the loop yields one legend entry per band, entry i being the band's min, rounded max, letter, points and description |
| Grading.ThresholdsOrdered | backend/core/kenya_grading.py:96-108 | the first max is 100, every later max is 0.01 below the previous band's min, each range is non-empty and ranges do not overlap |
| Grading.ValidScores | backend/core/kenya_grading.py:113-117 | every collected value lies in [0, 100] |
| Grading.GetMeanGrade | backend/core/kenya_grading.py:111-123 | the loop's result is the mean grade of the clamped present scores |
| Grading.MeanGradeSpec | backend/core/kenya_grading.py:118-123 | the mean is None exactly when no score is present, and then the label is "-" with 0 points; otherwise the mean is in [0, 100] with 1..6 points |
| Grading.ValidScoresEmpty | backend/core/kenya_grading.py:113-119 | nothing is collected exactly when every score is missing or unparseable |
| Grading.TermLeTotalPreorder | backend/core/kenya_grading.py:139-146 | ordering labels by their key is a total preorder, as `sorted` with a key needs |
| Grading.SortTermsSpec | backend/core/kenya_grading.py:135-146 | the result is a permutation in non-decreasing key order, tied labels keep their input order, and sorting twice changes nothing |
| Grading.TermKeysOfLabels | backend/core/kenya_grading.py:128-142 | "Term 1", "Term 2", "Term 3" take keys 1, 2, 3 from the fixed table |
| Grading.TermOrderOfLabels | backend/core/kenya_grading.py:127-132 | "Term 1" sorts strictly before "Term 2", and "Term 2" no later than "Term 3" |
| Grading.SortTermsExample | backend/core/kenya_grading.py:135-146 | sorting ["Term 2", "Term 1", "Term 3"] gives ["Term 1", "Term 2", "Term 3"] |
| Cleaner.StandardizeGender | backend/core/cleaner.py:29-34 | the result is always one of Male, Female, Other, Unknown, and it is Unknown exactly for a missing value |
| Cleaner.StandardizeGenderSpec | backend/core/cleaner.py:22-34 | a present value is Male exactly for the spellings m/male/boy/b/man of its trimmed lower-case form, Female exactly for f/female/girl/g/woman, and Other when the map does not know it |
| Cleaner.MaleKeys | backend/core/cleaner.py:22-23 | the map sends a key to Male exactly for the five male spellings |
| Cleaner.FemaleKeys | backend/core/cleaner.py:22-24 | the map sends a key to Female exactly for the five female spellings |
| Cleaner.SubjectMap | backend/core/cleaner.py:39-73 | every value the subject map yields is one of the 22 canonical subject names |
| Cleaner.SubjectMapAtoG | backend/core/cleaner.py:39-73 | the spellings from a to g map only to canonical names |
| Cleaner.SubjectMapHtoS | backend/core/cleaner.py:39-73 | the spellings from h to s map only to canonical names |
| Cleaner.NormalizeSubject | backend/core/cleaner.py:76-79 | a missing value comes back as the text "nan" |
| Cleaner.FixedPoint | backend/core/cleaner.py:76-81 | a trimmed name whose lower-case form maps back to it is returned unchanged |
| Cleaner.CanonicalSubjectsFixed | backend/core/cleaner.py:39-81 | each of the 22 canonical names normalises to itself |
| Cleaner.NormalizeUnknownSubjectIdempotent | backend/core/cleaner.py:80-81 | a name the map does not know comes back trimmed and title-cased, and normalising that again changes nothing |
| Cleaner.FindColumnIsAlias | backend/core/cleaner.py:297-303 | a column found is one of the table's columns, and its trimmed lower-case name is one of the aliases |
| Cleaner.TrimCell | backend/core/cleaner.py:106-113 | a trimmed object cell is text or missing |
| Cleaner.MapColumn | backend/core/cleaner.py:120 | applying a function to one column keeps the row count and rewrites that one cell of each row (also lines 130 and 183-184) |
| Cleaner.AddColumn | backend/core/cleaner.py:166 | assigning a column keeps the existing columns and adds exactly the new name (also lines 209 and 258) |
| Cleaner.TrimStrings | backend/core/cleaner.py:104-113 | trimming keeps the columns and the number of rows |
| Cleaner.TrimStringsSpec | backend/core/cleaner.py:104-113 | afterwards no text cell has surrounding whitespace or is one of "nan", "NaN", "", "None" |
| Cleaner.PercentRowSpec | backend/core/cleaner.py:162-176 | with a present positive max the percentage is round(score / max × 100, 2); on every other row it is the raw score; it is missing exactly when the score is |
| Cleaner.FlagOutliers | backend/core/cleaner.py:205-210 | every row is kept and gains `is_outlier`, true exactly when its z-score exceeds 3 |
| Cleaner.CountOutliers | backend/core/cleaner.py:207 | the number of outliers is at most the number of rows |
| Cleaner.OutlierIsFarFromMean | backend/core/cleaner.py:204-206 | with a positive deviation, a row is an outlier exactly when its percentage is more than 3 deviations from the mean |
| Cleaner.DropDuplicatesLast | backend/core/cleaner.py:247 | de-duplication never adds rows and keeps only input rows |
| Cleaner.DropDuplicatesUnique | backend/core/cleaner.py:245-247 | no two surviving rows share a key |
| Cleaner.DropDuplicatesKeepsKeys | backend/core/cleaner.py:247 | every key of the input is still the key of some surviving row |
| Cleaner.DropDuplicatesKeepsLast | backend/core/cleaner.py:247 | a row whose key does not come back later survives, so the last row of each key is kept |
| Cleaner.DistinctKeysBothKept | backend/core/cleaner.py:219-247 | two rows with different keys are both kept, so rows differing only in exam name both survive |
| Cleaner.PassFail | backend/core/cleaner.py:256-262 | "Pass" exactly when the percentage is present and at least the pass mark, "Fail" exactly when present and below, "N/A" exactly when missing |
| Cleaner.FindColumnSomeIf | backend/core/cleaner.py:300-302 | if any alias matches a column, a column is found |
| Cleaner.PercentageIsScoreColumn | backend/core/cleaner.py:143-144 | "percentage" is a score alias, so a table with that column always has a score column |
| Cleaner.TrimStage | backend/core/cleaner.py:103-114 | step 1 keeps the columns and the row count |
| Cleaner.GenderStage | backend/core/cleaner.py:116-124 | with a gender column every cell becomes one of the four standard values; without one nothing changes |
| Cleaner.SubjectStage | backend/core/cleaner.py:126-140 | with a subject column every cell is replaced by its normalised name; without one nothing changes |
| Cleaner.ScoreStage | backend/core/cleaner.py:142-160 | the score and max columns hold only numbers or missing values afterwards; without a score column no step or warning is added |
| Cleaner.PercentStage | backend/core/cleaner.py:162-176 | a score column adds "percentage", row by row as PercentRowSpec states; nothing is added without one |
| Cleaner.MissingStage | backend/core/cleaner.py:178-195 | with missing-as-zero no score is left missing; otherwise the table is unchanged |
| Cleaner.OutlierStage | backend/core/cleaner.py:197-217 | outlier detection keeps every row and at most adds `is_outlier` |
| Cleaner.DedupStage | backend/core/cleaner.py:219-254 | the columns are kept, rows are only removed, and with any key column no two rows share a key |
| Cleaner.PassFailStage | backend/core/cleaner.py:256-263 | with a percentage column every row gets its pass/fail label and "pass_fail" is added |
| Cleaner.Prepare | backend/core/cleaner.py:101-195 | steps 1 to 6 keep every row and add "percentage" exactly when a score column is found; trimming is the first step |
| Cleaner.CleanDataframe | backend/core/cleaner.py:86-271 | the step-by-step method returns exactly the table and report of the nine steps in order |
| Cleaner.CleanShape | backend/core/cleaner.py:94-96 | the report's original and cleaned counts are the input's and the output's, rows are only removed, every input column survives, and trimming is step 1 (also lines 265-269) |
| Cleaner.FinishKeepsColumns | backend/core/cleaner.py:197-263 | steps 7 to 9 keep every column and never add rows |
| Cleaner.FinishKeepsPercentage | backend/core/cleaner.py:197-263 | steps 7 to 9 keep "percentage" and label every row when it is there |
| Cleaner.CleanPercentage | backend/core/cleaner.py:162-176 | the cleaned table has "percentage" exactly when the input has a score column, and then every row has its pass/fail label (also lines 256-263) |
| Cleaner.FillZeroLeavesNoMissing | backend/core/cleaner.py:182-184 | after filling, neither the score nor the percentage of any row is missing |
| Cleaner.FlagOutliersKeepsRows | backend/core/cleaner.py:209-213 | outliers are flagged, not removed: every row keeps its other cells |
| Cleaner.ReportHeader | backend/core/cleaner.py:276-282 | the report opens with five lines |
| Cleaner.StepLines | backend/core/cleaner.py:283-284 | one line per step |
| Cleaner.WarningSection | backend/core/cleaner.py:286-290 | no lines without warnings, otherwise a blank, a header and one line per warning |
| Cleaner.WarningLines | backend/core/cleaner.py:289-290 | one bulleted line per warning, in order |
| Cleaner.GenerateCleaningReport | backend/core/cleaner.py:274-292 | the loops produce the header, the numbered steps and the warnings section, joined by newlines |
| Cleaner.AppendSteps | backend/core/cleaner.py:283-284 | the loop appends exactly the numbered step lines |
| Cleaner.AppendWarnings | backend/core/cleaner.py:286-290 | the loop appends exactly the warnings section |
| Cleaner.ReportLinesSpec | backend/core/cleaner.py:276-290 | step i sits on line 5 + i numbered i + 1, and the warnings section follows only when there are warnings |
| Parser.Lookup | backend/core/parser.py:206-223 | a column found for a field comes from an entry of the mapping for that field |
| Parser.LookupAt | backend/core/parser.py:162 | the first entry of a field is what lookup returns (also line 206) |
| Parser.NormColumns | backend/core/parser.py:123 | each column name is lower-cased and trimmed, position by position |
| Parser.SubjectColumnMeansLong | backend/core/parser.py:123-130 | any column whose normalised name is a subject alias makes the layout long |
| Parser.WideIff | backend/core/parser.py:126-144 | the layout is wide exactly when no column is a subject alias and at least three normalised columns lie outside every alias list |
| Parser.SuggestedMapping | backend/core/parser.py:147-164 | the suggestion has one entry per field of the alias table |
| Parser.SuggestColumnMapping | backend/core/parser.py:147-164 | the nested loop with its early exit yields, field by field, the column of the earliest matching alias |
| Parser.SuggestionIsEarliestAlias | backend/core/parser.py:156-162 | a field is unmapped exactly when none of its aliases matches; a suggested column is a table column normalising to an alias of the field, with no earlier alias of the field matching |
| Parser.YearServesClassAndYear | backend/core/parser.py:34-38 | a lone "year" column is suggested both as the class and as the year, since suggestions are not de-duplicated (also lines 70-72 and 156-163) |
| Parser.SuggestedAt | backend/core/parser.py:156-162 | the suggestion for the field at position k is the column of its earliest matching alias |
| Parser.SuggestedIn | backend/core/parser.py:159-160 | every suggested column is a column of the table |
| Parser.FieldAt | backend/core/parser.py:156-162 | in a mapping laid out field by field, each field's entry is found at its position |
| Parser.MappedColumns | backend/core/parser.py:173 | the mapped columns kept are non-empty and present in the table |
| Parser.Present | backend/core/parser.py:176 | filtering keeps exactly the elements that are in both lists, in order |
| Parser.Outside | backend/core/parser.py:178 | filtering keeps exactly the elements outside the dropped list, in order |
| Parser.MetadataColumns | backend/core/parser.py:172-176 | the identifier columns are the mapped columns plus the helper columns present, each once |
| Parser.Melt | backend/core/parser.py:184-189 | the melted rows number subject columns × input rows |
| Parser.MeltAt | backend/core/parser.py:184-189 | input row i of subject column k sits at position k × rows + i |
| Parser.ConvertShape | backend/core/parser.py:167-191 | without a leftover column the table is unchanged; otherwise the columns are the identifiers then "subject" and "score", with one row per input row and subject column, and the subject columns are exactly the non-identifier columns |
| Parser.ConvertRow | backend/core/parser.py:183-189 | each output row keeps its input row's identifier cells, names its subject column and carries that column's cell as the score |
| Parser.SharedKeyCounted | backend/core/parser.py:267-268 | two rows sharing a key are both flagged, so the count is at least two |
| Parser.RequiredIssues | backend/core/parser.py:202-212 | the required-field issues are all missing-column issues, one for "name" exactly when it is unmapped and one for "score" exactly when it is unmapped |
| Parser.RequiredFieldIssues | backend/core/parser.py:205-212 | the loop yields exactly those issues |
| Parser.ScoreIssues | backend/core/parser.py:225-254 | all are score issues: the unparseable count appears exactly when positive, negatives exactly when some value is below 0, over-100 exactly when some value exceeds 100 and no max-score column is mapped |
| Parser.ScoreChecks | backend/core/parser.py:223-224 | the score checks raise only score issues |
| Parser.DuplicateChecks | backend/core/parser.py:259-274 | the duplicate check raises only duplicate issues |
| Parser.ValidateData | backend/core/parser.py:194-276 | the appending method returns the issues of the suggested mapping in check order |
| Parser.ValidateWith | backend/core/parser.py:198-276 | the same checks against any mapping |
| Parser.RunChecks | backend/core/parser.py:214-274 | after the required fields, the empty-table, score and duplicate checks append their issues in order |
| Parser.ValidationRequired | backend/core/parser.py:202-220 | a missing name or score column is a critical issue exactly when unmapped, and so is a table without rows exactly when it has none |
| Parser.ValidationNoScores | backend/core/parser.py:223-224 | without a score column no score issue is raised |
| Parser.ValidationScores | backend/core/parser.py:223-254 | with a score column in the table, each score issue is raised exactly when its condition holds |
| Parser.DuplicatesNeedColumns | backend/core/parser.py:259-263 | a duplicate issue needs an id (or name) column and a subject column |
| Parser.ValidationDuplicates | backend/core/parser.py:259-274 | with those columns present, the duplicate issue is raised exactly when rows share id, subject and (when mapped) term, counting every such row |
| Parser.InPartByKind | backend/core/parser.py:198-276 | since the four groups of issues have disjoint kinds, an issue is in the list exactly when it is in its kind's group |
| Parser.MissingColumnsDiffer | backend/core/parser.py:207-212 | the two missing-column issues differ by the field in their message |
| Stats.SafeFloat | backend/core/stats.py:20-26 | a computed number stays present exactly when it is finite (rounded to two places) |
| Stats.SafeFloatWithin | backend/core/stats.py:24 | rounding keeps a value within integral bounds, so a percentage stays in [0, 100] |
| Stats.Sanitize | backend/core/stats.py:29-42 | the result holds no NaN or infinity; a non-finite float becomes None, a finite one is kept; lists keep their length and dicts their keys; other values pass through |
| Stats.SanitizeSafe | backend/core/stats.py:29-42 | a value already free of NaN and infinity is unchanged |
| Stats.SanitizeIdempotent | backend/core/stats.py:29-42 | sanitising twice is sanitising once |
| Stats.Prepared | backend/core/stats.py:56-83 | the percentage step keeps every row |
| Stats.CountAtLeast | backend/core/stats.py:105 | the pass count is at most the number of values |
| Stats.CountBelow | backend/core/stats.py:106 | the fail count is at most the number of values |
| Stats.PassFailPartition | backend/core/stats.py:105-106 | every present percentage is counted as a pass or as a fail, never both |
| Stats.RateWithin | backend/core/stats.py:103-104 | a rate of a count within its total lies in [0, 100] |
| Stats.BinOf | backend/core/stats.py:110-115 | a value in [0, 100] has a bin of the nine, half-open except the last, which includes 100; a value outside has none |
| Stats.BinsDisjoint | backend/core/stats.py:111 | a value lies in no bin but its own |
| Stats.Histogram | backend/core/stats.py:111 | the histogram has nine counts |
| Stats.TotalZeros | backend/core/stats.py:111 | an empty histogram counts nothing |
| Stats.TotalIncrement | backend/core/stats.py:111 | counting a value raises the total by one |
| Stats.HistogramCounts | backend/core/stats.py:111-114 | each count is the number of values in its bin |
| Stats.HistogramTotal | backend/core/stats.py:111-114 | the counts add up to the number of values within [0, 100] |
| Stats.GroupMeans | backend/core/stats.py:119 | one mean per present group key (also lines 178, 190 and 199) |
| Stats.MeanDescTotalPreorder | backend/core/stats.py:119 | the descending order of means, missing last, is a total preorder |
| Stats.RankDescSpec | backend/core/stats.py:119 | the ranking is in descending order of mean and holds every group once (also lines 178 and 190) |
| Stats.Rounded | backend/core/stats.py:162-180 | one reported entry per group |
| Stats.KeyLabels | backend/core/stats.py:200 | one label per group |
| Stats.TrendLabels | backend/core/stats.py:201-204 | one label per trend entry |
| Stats.OverviewCounts | backend/core/stats.py:92-107 | the record count is the row count, pass and fail partition the present percentages, both rates lie in [0, 100] and are 0 without percentages |
| Stats.OverviewDistribution | backend/core/stats.py:109-115 | the distribution is present exactly when some percentage is; its nine counts are the bin counts and add up to the percentages within [0, 100] |
| Stats.TopAndBottom | backend/core/stats.py:117-186 | the ranking is a descending permutation of the group means; the top and bottom lists hold min(5, groups) entries, the head and the tail of that ranking |
| Stats.TermTrendsOrdered | backend/core/stats.py:196-204 | the term trends list every term group, in calendar order of the labels |
| Stats.MinOf | backend/core/stats.py:230 | the minimum is one of the values and no value is smaller |
| Stats.MaxOf | backend/core/stats.py:231 | the maximum is one of the values and no value is larger |
| Stats.CollectSubjects | backend/core/stats.py:219-242 | the loop over the subject groups appends the entries the specification gives, skipping empty groups |
| Stats.SubjectEntriesSpec | backend/core/stats.py:220-242 | every entry has a valid score, and every group with one has its entry |
| Stats.SubjectLeTotalPreorder | backend/core/stats.py:245 | ordering by `mean or 0` descending is a total preorder |
| Stats.SubjectOrder | backend/core/stats.py:245 | the sorted list is a permutation in descending order of mean (missing as 0), with equal means kept in key order |
| Stats.PivotColumns | backend/core/stats.py:251-257 | every pivot column is a subject key |
| Stats.PivotColumnsSpec | backend/core/stats.py:251-257 | a subject is a pivot column exactly when some student has a mean in it |
| Stats.Paired | backend/core/stats.py:261 | the paired means are at most one per student |
| Stats.CorrelationPairs | backend/core/stats.py:256-269 | the nested loops emit the pairs the specification gives, in order |
| Stats.CorrelationRow | backend/core/stats.py:259-269 | the inner loop emits column i's pairs with every later column |
| Stats.RowPairsStep | backend/core/stats.py:259-269 | one inner step appends the cell at column j |
| Stats.RowPairsSpec | backend/core/stats.py:259-269 | every pair of a row is a supported pair to the right of column i, and every supported one is there |
| Stats.PairsFromSpec | backend/core/stats.py:256-269 | the emitted pairs are exactly the pairs a < b of pivot columns with at least three students having both, subject a first |
| Stats.ComputeSubjectStats | backend/core/stats.py:211-278 | the method returns the subject statistics the specification gives |
| Stats.SortedSubjects | backend/core/stats.py:219-245 | the sorted subjects are a descending permutation of the loop's entries, each with a valid score, and every subject with a valid score is listed |
| Stats.SubjectStatsSpec | backend/core/stats.py:211-278 | without a subject column the result is empty; otherwise the subjects are the sorted entries, and pairs are present exactly when there is a student column and at least two pivot columns |
| Stats.RowsRendering | backend/core/stats.py:298 | selecting rows never adds rows |
| Stats.RowsRenderingEmpty | backend/core/stats.py:298-300 | the selection is empty exactly when no row's student cell renders as the id |
| Stats.ScoreLabels | backend/core/stats.py:322-326 | one subject score per group |
| Stats.InfoOf | backend/core/stats.py:307-311 | at most one info field per name |
| Stats.TermRows | backend/core/stats.py:329-336 | one term line per term group |
| Stats.RankKeys | backend/core/stats.py:343-350 | one key per ranked student |
| Stats.Records | backend/core/stats.py:355-364 | one score line per matching row |
| Stats.ProfileFound | backend/core/stats.py:295-300 | a profile exists exactly when there is a student column and some row's student cell renders as the id |
| Stats.RankOfSpec | backend/core/stats.py:339-352 | a rank is None exactly when the id is not a key; otherwise it is the 1-based position of the id, at most the total, with everyone before it ranked at least as high |
| Stats.PassFailSpec | backend/core/stats.py:362 | a score line passes exactly when its percentage is present, non-zero and at least the pass mark |
| Stats.ZeroScoreFailsAtZeroMark | backend/core/stats.py:317 | a score of 0 is a Fail even with pass mark 0, while the pass count counts it as a pass (also line 362) |
| Stats.ProfileCounts | backend/core/stats.py:314-318 | pass and fail split the student's valid scores, there is one score line per matching row, and the school total is the number of students (also lines 348-364) |
| Terms.CanonicalTerm | backend/core/stats.py:401-410 | a canonical label is text or missing |
| Terms.RunsAfter | backend/core/stats.py:407 | a prefix without digits does not change the first digit run |
| Terms.FirstRunOfTermLabel | backend/core/stats.py:407-409 | the first digit run of "Term n" is the decimal form of n |
| Terms.TermLabelIsCanonical | backend/core/stats.py:404-405 | "Term n" has no surrounding blanks and is not "nan" |
| Terms.CanonicalTermIdempotent | backend/core/stats.py:401-412 | canonicalising twice changes nothing |
| Terms.SameNumberSameTerm | backend/core/stats.py:398-410 | labels whose first digit runs spell the same integer become the same "Term n", so "T1", " term 1 " and "Term 01" all give "Term 1" |
| Terms.NumberedIsPresent | backend/core/stats.py:404-409 | a label with a digit is never blank or "nan" and becomes "Term n" of its first run |
| Terms.BlankTermIsMissing | backend/core/stats.py:404-406 | a blank label becomes missing |
| Terms.Canonicalised | backend/core/stats.py:412 | relabelling keeps every row |
| Terms.SchoolStepSpec | backend/core/stats.py:437-446 | for a later school term the delta is present exactly when both means are, the trend is unknown exactly when one is missing, improving exactly when curr > prev + 1, declining exactly when curr < prev - 1, stable otherwise |
| Terms.DeltaTrendSpec | backend/core/stats.py:464-469 | improving exactly for a delta above 1, declining exactly below -1, stable exactly in between, and the fallback exactly without a delta (also lines 512-517 and 635-640) |
| Terms.RoundedDelta | backend/core/stats.py:464 | a delta exists exactly when both means do (also line 512) |
| Terms.TimelineSteps | backend/core/stats.py:438-449 | one step per point (also lines 631-643) |
| Terms.AnnotateTimeline | backend/core/stats.py:438-449 | the in-place loops write every later point's step and then the baseline at index 0, leaving the array equal to the timeline steps (also lines 631-643) |
| Terms.TimelineStepsSpec | backend/core/stats.py:438-449 | only the first point is the baseline; a later point is unknown exactly when a neighbouring mean is missing, and has a delta exactly when both are present (also lines 631-643) |
| Terms.Present | backend/core/stats.py:526-527 | at most one present mean per term |
| Terms.SeriesSteps | backend/core/stats.py:459-477 | one step per term |
| Terms.SeriesTrend | backend/core/stats.py:506-528 | the loop that threads `prev_mean` yields each term's step against the previous term and collects the present means |
| Terms.SeriesBaseline | backend/core/stats.py:464-469 | a term is "baseline" exactly when it is the first or a neighbouring mean is missing (also lines 512-517) |
| Terms.PresentCount | backend/core/stats.py:526-527 | the collected means number the present ones |
| Terms.PresentSpec | backend/core/stats.py:526-527 | the collected means are exactly the present means |
| Terms.OverallTrend | backend/core/stats.py:531-538 | the slope is absent exactly when fewer than two term means are present |
| Terms.OverallTrendSpec | backend/core/stats.py:531-535 | with two terms the trend follows their difference against ±0.5, and a flat series is stable |
| Terms.Means | backend/core/stats.py:439-440 | one mean per point |
| Terms.WithSteps | backend/core/stats.py:442-449 | writing the steps keeps every point |
| Terms.Annotated | backend/core/stats.py:438-449 | annotating keeps every point |
| Terms.SchoolByTerm | backend/core/stats.py:422-435 | one school row per term |
| Terms.SeriesCells | backend/core/stats.py:460-477 | one cell per term |
| Terms.SubjectTermMatrix | backend/core/stats.py:480-483 | one matrix row per subject |
| Terms.TermMeansOf | backend/core/stats.py:518-525 | one mean per term cell |
| Terms.LatestIsLast | backend/core/stats.py:545-548 | a row whose cells end with the latest term sorts by that term's mean |
| Terms.SortStudentsSpec | backend/core/stats.py:542-548 | sorting keeps the same students, in descending order of latest mean (missing as 0), with equal means in their original order |
| Terms.AssignRanks | backend/core/stats.py:549-551 | the in-place loop gives row i the rank i + 1 |
| Terms.RankedRows | backend/core/stats.py:550-551 | ranking keeps every row |
| Terms.RankedRowsSpec | backend/core/stats.py:549-551 | ranks run from 1 to n, strictly increasing, and nothing else about a row changes |
| Terms.DeltaCell | backend/core/stats.py:576-579 | a student contributes at most one entry |
| Terms.DeltaEntries | backend/core/stats.py:575-587 | at most one entry per student |
| Terms.CountDeltas | backend/core/stats.py:570-588 | the counting loop's entries are the students with both means, and each count is the number of entries improving, declining or stable |
| Terms.CountStep | backend/core/stats.py:580-585 | one entry adds one to exactly the count it falls under |
| Terms.DeltaPartition | backend/core/stats.py:578-585 | improved + declined + stable equals the number of students with both a first-term and a last-term mean |
| Terms.DeltaEntriesSpec | backend/core/stats.py:575-588 | every student with both means has an entry, and the entries number those students |
| Terms.MoversSpec | backend/core/stats.py:587-596 | at most five improvers in descending delta and at most five decliners in ascending delta, all drawn from the entries |
| Terms.RankedDeltas | backend/core/stats.py:587-588 | the ranking is in descending order of delta and draws from the entries |
| Terms.TopOf | backend/core/stats.py:589-592 | the first five of a descending ranking stay descending |
| Terms.BottomOf | backend/core/stats.py:593-596 | the last five, reversed, are ascending |
| Terms.BottomAt | backend/core/stats.py:593-596 | decliner i is entry i from the end of the ranking |
| Terms.Phase | backend/core/stats.py:603-613 | the phase lies in 1..4 |
| Terms.ExamLeTotalPreorder | backend/core/stats.py:603-617 | Python's tuple order on exam keys is a total preorder |
| Terms.AnyInSpec | backend/core/stats.py:607-611 | a label meets a word list exactly when it contains one of its words |
| Terms.PhaseSpec | backend/core/stats.py:603-613 | phase 1 exactly when an opener word occurs; 2 exactly when none does and a mid-term word does; 4 exactly when no word of any list occurs |
| Terms.EarlierPhaseFirst | backend/core/stats.py:603-613 | an earlier phase always sorts first |
| Terms.NumberOrdersWithinPhase | backend/core/stats.py:604-606 | within a phase the first number decides |
| Terms.ExamKeyOpener | backend/core/stats.py:603-608 | "Opener" has phase 1, number 0 and text "opener" |
| Terms.ExamsOfSpec | backend/core/stats.py:617 | a term's exams are its present labels, each once, in exam-key order |
| Terms.EarlyPerformanceSpec | backend/core/stats.py:645-685 | the comparison uses the first and last exam points when there are two, else the first and last school terms when there are two, else nothing; the trend is insufficient_data exactly without a delta |
| Terms.TermListSpec | backend/core/stats.py:418-419 | the terms are each present label once, in calendar order |
| Terms.SchoolByTermSpec | backend/core/stats.py:422-449 | one school row per term in order; the first is the baseline and every later one is compared with the row before it |
| Terms.CompareTermsSpec | backend/core/stats.py:388-396 | without a term column there is nothing to compare; with one the terms are in calendar order with one school row each (also lines 418-449) |
| Risk.AverageFactorSpec | backend/core/risk.py:148-167 | the average entry (weight 30) triggers exactly below the pass mark, and its score lies in [0, 100], above zero exactly when it triggers |
| Risk.FailedSubjectsSpec | backend/core/risk.py:172-182 | a subject is failed exactly when its mean is present and below the pass mark |
| Risk.FailFactorSpec | backend/core/risk.py:169-193 | the fail entry (weight 25) triggers exactly when some subject is failed; its score lies in [0, 100], above zero exactly when it triggers |
| Risk.TrendFactorSpec | backend/core/risk.py:195-236 | the trend entry (weight 25) triggers exactly for a slope below -3, which is exactly when the direction is "declining"; its score lies in [0, 100], above zero exactly when it triggers |
| Risk.DeviationFactorSpec | backend/core/risk.py:238-261 | an entry (weight 10) is appended exactly when the class has statistics with a positive deviation, and triggers exactly more than 1.5 deviations below the class mean; the score lies in [0, 100] |
| Risk.DropFactorSpec | backend/core/risk.py:280-295 | an entry (weight 10) is appended exactly when the scan ran, and triggers exactly for a drop above 20; the score lies in [0, 100] |
| Risk.ScanSubject | backend/core/risk.py:272-278 | the inner loop over one subject's scores ends at the scan of that subject |
| Risk.BiggestDrop | backend/core/risk.py:268-278 | the loop over the subjects ends at the scan of every subject from a zero drop |
| Risk.ScanScoresSpec | backend/core/risk.py:273-278 | the scan never lowers the drop, ends at least as large as every consecutive drop between present scores, and ends where it started or at one of those drops with its subject |
| Risk.BiggestDropSpec | backend/core/risk.py:268-278 | the largest drop is at least 0 and at least every drop of every subject, and is either zero with no subject or an actual drop of the subject it names |
| Risk.TermFirstTotalPreorder | backend/core/risk.py:271 | the term order of `sort_values` is a total preorder |
| Risk.TermScores | backend/core/risk.py:271-272 | one pair per row |
| Risk.LevelSpec | backend/core/risk.py:299-304 | High exactly from 70, Medium exactly in [40, 70), Low exactly below 40 |
| Risk.TopIndex | backend/core/risk.py:311 | the index of the first entry of greatest weight |
| Risk.AssessStudent | backend/core/risk.py:144-332 | the per-student body builds the assessment of the student's signals |
| Risk.RiskScoreWithin | backend/core/risk.py:167-298 | with a positive pass mark the weighted sum and the rounded, capped risk score lie in [0, 100] |
| Risk.SlugIs | backend/core/risk.py:312 | the snake-cased name is the character-wise lower-cased, underscored name |
| Risk.AverageKey | backend/core/risk.py:155 | "Overall Average" snake-cases to "overall_average" (also line 312) |
| Risk.FailedKey | backend/core/risk.py:178 | "Subjects Failed" snake-cases to "subjects_failed" (also line 312) |
| Risk.LibraryKeys | backend/core/risk.py:22-30 | both keys are in the library with their advice |
| Risk.TrendKey | backend/core/risk.py:31-34 | "score_trend" has no library entry (also lines 209 and 312) |
| Risk.PartWeights | backend/core/risk.py:154-235 | the weights each factor appends: 30, 25, 25, 10 and 10 (also lines 248-293) |
| Risk.LeadIsTop | backend/core/risk.py:307-311 | a triggered head entry at least as heavy as every later one is what `max` picks |
| Risk.TopOfParts | backend/core/risk.py:307-311 | over the factor list's shape the heaviest triggered entry is the average entry when it triggers, else the fail entry |
| Risk.NotHighWithoutLeaders | backend/core/risk.py:167-304 | without the average and fail factors the score is at most 45, so not High |
| Risk.TopTriggered | backend/core/risk.py:307-312 | the heaviest triggered factor is the average when it triggers, else the failed subjects |
| Risk.HighRiskAdvice | backend/core/risk.py:308-314 | a High student always gets the general advice followed by the average or the failed-subjects advice |
| Risk.FillClassStats | backend/core/risk.py:127-132 | the loop over class groups fills the class statistics |
| Risk.ClassStatsKeys | backend/core/risk.py:129-132 | a class has statistics exactly when its group has more than one score |
| Risk.ClassStatsValues | backend/core/risk.py:129-132 | each class's statistics are its group's mean and deviation, the deviation positive exactly when its scores are not all equal |
| Risk.NumericClassNeverFound | backend/core/risk.py:129-132 | with numeric class labels the lookup as written never finds the class; the lookup by value does (also lines 240-243) |
| Risk.TextClassLookupAgrees | backend/core/risk.py:240-243 | for text labels the two lookups agree |
| Risk.StudentSignals | backend/core/risk.py:139-295 | the signals of one student, running the drop scan when it applies; the class statistics are found with the corrected lookup by class value (see Findings), so a numeric class label finds its class here |
| Risk.AssessStudents | backend/core/risk.py:134-332 | the per-student loop builds the assessment of every student with a score, in id order, with the corrected class lookup (see Findings) |
| Risk.AssessmentsWellFormed | backend/core/risk.py:298-327 | every assessment has a score in [0, 100], the level of that score and a present mean |
| Risk.PctsOfRowsWhere | backend/core/risk.py:138-139 | a student's scores are among the table's scores |
| Risk.NoScoresNoAssessments | backend/core/risk.py:139-142 | a table without scores assesses nobody |
| Risk.BelowBothSpec | backend/core/risk.py:335-343 | the filter keeps exactly the students whose mean is below the school average and below the pass mark |
| Risk.RiskDescTotalPreorder | backend/core/risk.py:346 | descending risk score is a total preorder |
| Risk.LevelCounts | backend/core/risk.py:349-351 | the three level counts add up to the number of students |
| Risk.ReportOrder | backend/core/risk.py:335-346 | the report lists exactly the kept students, riskiest first, equal scores in assessment order |
| Risk.SummaryCounts | backend/core/risk.py:348-362 | the total is the number listed, the level counts add up to it, and the high-risk share lies in [0, 100], 0 for none |
| Risk.ComputeRiskScores | backend/core/risk.py:91-363 | `compute_risk_scores` builds the report function's value, with the corrected class lookup (see Findings) |
| Risk.ScoreTable | backend/core/risk.py:115-363 | the body after the percentage column builds the table's report, with the corrected class lookup (see Findings) |
| Risk.ListedStudents | backend/core/risk.py:334-346 | every listed student is below both bounds and keeps its score and level |
| Risk.RiskReportSpec | backend/core/risk.py:91-363 | the report is the empty one exactly without a student column; otherwise it lists students riskiest first, each below the school average and the pass mark with a score in [0, 100] and its level, with counts adding up |
| Risk.TableReportSpec | backend/core/risk.py:115-363 | the same for the table after the percentage column is in place |
| Gaps.SafeOpt | backend/core/gaps.py:27-32 | a statistic stays present exactly when it is present |
| Gaps.SafeMonotone | backend/core/gaps.py:27-32 | rounding to four places keeps order |
| Gaps.SafeNonNegative | backend/core/gaps.py:27-32 | rounding keeps a non-negative number non-negative |
| Gaps.EffectLabel | backend/core/gaps.py:48-58 | "negligible" exactly below 0.2 in absolute value, "small" exactly in [0.2, 0.5), "medium" exactly in [0.5, 0.8), "large" exactly from 0.8 |
| Gaps.EffectLabelMonotone | backend/core/gaps.py:48-58 | a larger effect never gets a smaller label, and the sign does not matter |
| Gaps.CohensDAntisymmetric | backend/core/gaps.py:35-45 | swapping the groups negates d |
| Gaps.PooledStdZero | backend/core/gaps.py:40-43 | the pooled deviation is not negative, and is 0 exactly when both samples are constant |
| Gaps.CohensDSign | backend/core/gaps.py:35-45 | d is 0 for a group of fewer than two values; otherwise 0 exactly when both are constant or the means are equal, and positive exactly when the first mean is larger and not both are constant |
| Gaps.GenderRows | backend/core/gaps.py:93-94 | every kept row is a table row whose lower-cased gender is in the group |
| Gaps.GroupsDisjoint | backend/core/gaps.py:93-94 | no gender value is in both groups |
| Gaps.AnalyzeGender | backend/core/gaps.py:92-97 | a result exists exactly when both groups have at least two scores |
| Gaps.StdErrNonNegative | backend/core/gaps.py:106-107 | the standard error is not negative |
| Gaps.IntervalOrdered | backend/core/gaps.py:108-130 | the rounded interval bounds stay ordered |
| Gaps.GenderGapOfSound | backend/core/gaps.py:92-134 | a gender result is sound: counts of at least two, gap not negative, interval ordered, direction naming the lower group, significance with a p-value and at least a small effect |
| Gaps.GenderGapOfSpec | backend/core/gaps.py:99-134 | the counts are the group sizes, girls underperform exactly when the male mean is larger, the result is significant exactly when p < 0.05 and \|d\| > 0.2, and the label and gap follow d and the means |
| Gaps.AnalyzeGenderSound | backend/core/gaps.py:92-134 | any gender result of a slice is sound and carries its label and subject |
| Gaps.ComputeGenderGaps | backend/core/gaps.py:82-149 | the method builds the overall result and then the per-subject ones |
| Gaps.SubjectLoop | backend/core/gaps.py:142-147 | the loop appends one result per qualifying subject group |
| Gaps.SubjectGenderGapsSpec | backend/core/gaps.py:142-147 | every per-subject result is sound and labelled by its subject, at most one per group |
| Gaps.SubjectGenderGapSpec | backend/core/gaps.py:143-147 | one subject group gives at most one sound result, labelled by its subject |
| Gaps.OverallGenderGapSpec | backend/core/gaps.py:136-139 | the overall result exists exactly when both groups of the table have two scores, and is labelled "Overall" with no subject |
| Gaps.GenderGapsSpec | backend/core/gaps.py:82-149 | nothing without a gender column; otherwise every result is sound, the overall one comes first, the others carry their subject |
| Gaps.Names | backend/core/gaps.py:180 | the keys of the dict in insertion order |
| Gaps.Put | backend/core/gaps.py:172-173 | assigning to a dict key keeps an existing key's place and appends a new key, and keeps the keys distinct |
| Gaps.GroupsFrom | backend/core/gaps.py:169-173 | the stored keys are distinct and every stored group holds at least the minimum number of scores (also lines 232-235 and 281-284) |
| Gaps.PutNames | backend/core/gaps.py:172-173 | after an assignment the keys are the old ones and the new one |
| Gaps.PutEntries | backend/core/gaps.py:172-173 | after an assignment every entry is the new one or an old one |
| Gaps.GroupsFromKeys | backend/core/gaps.py:169-173 | every value with enough scores is stored under its text |
| Gaps.GroupsFromOrigin | backend/core/gaps.py:169-173 | every stored group holds the scores of a value with that text |
| Gaps.CollectGroups | backend/core/gaps.py:169-173 | the loop fills the dict with the function's entries (also lines 232-235 and 281-284) |
| Gaps.MeansOf | backend/core/gaps.py:172 | one mean per group, under its key (also line 250) |
| Gaps.MeanGeTotalPreorder | backend/core/gaps.py:197 | descending order of mean is a total preorder (also lines 251 and 286) |
| Gaps.RoundedMeans | backend/core/gaps.py:213 | each listed mean is the rounded mean under its key (also lines 264 and 297) |
| Gaps.SpreadSpec | backend/core/gaps.py:196-213 | the best group has the largest mean, the worst the smallest, the gap is not negative and every group is listed in descending order (also lines 250-264 and 286-297) |
| Gaps.ExtremeWitnesses | backend/core/gaps.py:197-199 | the first and last entries of the descending order are groups with the largest and smallest mean |
| Gaps.Extremes | backend/core/gaps.py:197-199 | the first entry's mean bounds every mean from above, the last from below |
| Gaps.RoundedSorted | backend/core/gaps.py:213 | rounding keeps the descending order |
| Gaps.Concat | backend/core/gaps.py:190 | the concatenation holds every group |
| Gaps.DevSum | backend/core/gaps.py:190-192 | the deviations from d sum to the sum minus n times d |
| Gaps.SqDevExpand | backend/core/gaps.py:192 | the squared deviation expands into the sums of the values and of their squares |
| Gaps.ExpandStep | backend/core/gaps.py:192 | one value keeps that expansion |
| Gaps.SqDevShift | backend/core/gaps.py:191-192 | moving the centre adds a cross term and a square term |
| Gaps.ShiftAlgebra | backend/core/gaps.py:191-192 | the algebra of that move |
| Gaps.SqDevNonNegative | backend/core/gaps.py:192 | a squared deviation is not negative |
| Gaps.GroupSplit | backend/core/gaps.py:191-192 | a group's between-share lies between 0 and its squared deviation |
| Gaps.SplitAt | backend/core/gaps.py:191-192 | the same for any balanced centre |
| Gaps.ShiftFromBalanced | backend/core/gaps.py:191-192 | from a balanced centre the move adds the square term alone |
| Gaps.DevAtMean | backend/core/gaps.py:191 | deviations from the mean sum to zero |
| Gaps.BetweenWithinTotal | backend/core/gaps.py:191-192 | the between-group sum lies in [0, total] |
| Gaps.EtaSquaredWithin | backend/core/gaps.py:190-193 | eta-squared lies in [0, 1] |
| Gaps.Arrays | backend/core/gaps.py:179 | the group arrays are the stored scores in insertion order |
| Gaps.GroupTest | backend/core/gaps.py:182-194 | the test is the t-test exactly for two groups (also lines 243-248) |
| Gaps.ClassGapOfSpec | backend/core/gaps.py:179-214 | the test matches the group count, an ANOVA's eta-squared lies in [0, 1], a two-group d is not negative when the first mean is larger, a significant result has a p-value, and the spread is the group means' |
| Gaps.AnovaEffectOf | backend/core/gaps.py:186-194 | an ANOVA's effect size lies in [0, 1] |
| Gaps.TwoGroupEffect | backend/core/gaps.py:182-211 | the rounded d is not negative when the first mean is the larger |
| Gaps.AnovaEffect | backend/core/gaps.py:190-211 | the rounded eta-squared lies in [0, 1] |
| Gaps.ComputeClassGaps | backend/core/gaps.py:154-216 | the method builds the class results |
| Gaps.ClassGapsSpec | backend/core/gaps.py:154-216 | at most one result, present exactly when a class column has two class texts of two scores each, and then the result of those groups |
| Gaps.ClassGapsEffect | backend/core/gaps.py:190-193 | any ANOVA class result has its effect size in [0, 1] |
| Gaps.RegionalGapOfSpec | backend/core/gaps.py:240-265 | the test matches the group count, a significant result has a p-value, and the spread is the group means' |
| Gaps.ComputeRegionalGaps | backend/core/gaps.py:221-265 | the method builds the regional results |
| Gaps.RegionalGapsSpec | backend/core/gaps.py:221-265 | at most one result, present exactly when a region column has two region texts of two scores each |
| Gaps.ComputeTermGaps | backend/core/gaps.py:270-298 | the method builds the guarded term results |
| Gaps.TermGapsSpec | backend/core/gaps.py:270-298 | at most one result, present exactly when a term column holds two terms and some term holds a score, and then the spread of the term means |
| Gaps.TermGroupsEmpty | backend/core/gaps.py:280-284 | the term groups are empty exactly when no term holds a score |
| Gaps.TermGapsAgree | backend/core/gaps.py:276-289 | the guarded version agrees with the code as written wherever that one returns, and the code raises exactly when two terms hold no score at all |
| Gaps.NoScores | backend/core/gaps.py:282 | rows without a numeric percentage give no scores |
| Gaps.TermIndexErrorWithoutScores | backend/core/gaps.py:276-289 | two terms and no numeric percentage make the code as written raise, where the guarded version reports nothing |
| Gaps.ComputeGapAnalysis | backend/core/gaps.py:319-328 | the method builds the four analyses, with the guarded term result (see Findings) |
| Gaps.GapAnalysisSpec | backend/core/gaps.py:319-328 | sound gender results, at most one class, regional and term result, and an eta-squared in [0, 1] for a class ANOVA; the term result is the guarded one (see Findings) |
| Gaps.SignificantHasPValue | backend/core/gaps.py:116 | every significant gender or class result carries a p-value (also line 212) |
| Gaps.ClassGapsPValue | backend/core/gaps.py:212 | every significant class result carries a p-value |
| Gaps.ClassGapOfPValue | backend/core/gaps.py:212 | a significant class result has a p-value |
| Insights.AdviceNonEmpty | backend/core/insights.py:91-95 | every rule gives a non-empty recommendation (also lines 108-111 and 131-135) |
| Insights.Collect | backend/core/insights.py:164-167 | a rule collects at most one insight per element (also lines 197-202 and 509-515) |
| Insights.CollectMembers | backend/core/insights.py:164-167 | an insight is collected exactly when the rule produces it for some element (also lines 197-202 and 509-515) |
| Insights.CollectAll | backend/core/insights.py:164-167 | every collected insight has any property the rule guarantees of what it produces (also lines 197-202 and 509-515) |
| Insights.CollectLoop | backend/core/insights.py:164-167 | the `for` loop that appends matching insights builds the collected list |
| Insights.OverallInsight | backend/core/insights.py:77-113 | always one performance insight: low exactly below the pass mark, critical exactly more than 15 below it, warning exactly within 15 below, info exactly at or above |
| Insights.FailRateInsight | backend/core/insights.py:115-137 | an insight exactly for a rounded failure rate above 40, critical exactly above 60, never info |
| Insights.WeakestInsight | backend/core/insights.py:139-162 | an insight exactly when there are subjects, the mean is positive and the last-ranked subject is more than 10 points under it; it is a warning about that subject |
| Insights.SubjectFailRule | backend/core/insights.py:164-185 | an insight exactly for a subject failure rate above 50, critical exactly above 70 |
| Insights.ComputePerformanceInsights | backend/core/insights.py:65-187 | the method builds the performance insights |
| Insights.CountWhereAppend | backend/core/insights.py:65-187 | counting distributes over concatenation |
| Insights.CountOnlyHead | backend/core/insights.py:77-113 | a list whose head alone qualifies counts one |
| Insights.ExactlyOneOverall | backend/core/insights.py:77-113 | exactly one insight rates the overall mean, and it comes first |
| Insights.GenderRule | backend/core/insights.py:197-215 | an insight exactly for a significant gender gap, critical exactly for a medium or large effect |
| Insights.ClassRule | backend/core/insights.py:217-234 | an insight exactly for a significant class gap, critical exactly above 15 points |
| Insights.RegionRule | backend/core/insights.py:236-251 | an insight exactly for a significant regional gap, critical exactly above 20 points |
| Insights.TermRule | backend/core/insights.py:253-269 | an insight exactly for a term spread above 5, a warning exactly above 10, never critical |
| Insights.ComputeGapInsights | backend/core/insights.py:192-271 | the method builds the gap insights |
| Insights.Bump | backend/core/insights.py:325-332 | incrementing a count never removes a key (also lines 579-583) |
| Insights.BumpSpec | backend/core/insights.py:325-332 | `d[k] = d.get(k, 0) + 1` adds one to the count of k only, and one to the total (also lines 579-583) |
| Insights.BumpUnique | backend/core/insights.py:325-332 | incrementing keeps the keys unique |
| Insights.EntryCount | backend/core/insights.py:334 | an entry's count is the count of its key |
| Insights.TallySpec | backend/core/insights.py:325-332 | the tally counts every key's occurrences, holds each key once and exactly the keys that occur, and adds up to the number of keys (also lines 579-583) |
| Insights.TallyEntry | backend/core/insights.py:334-335 | every tally entry carries the occurrences of a key that occurs |
| Insights.TallyLoop | backend/core/insights.py:325-332 | the counting loop builds the tally (also lines 579-583) |
| Insights.RiskSummaryInsight | backend/core/insights.py:292-319 | an insight exactly with a high-risk student; critical exactly above 25%, warning exactly in (15, 25], info exactly at most 15 |
| Insights.ClusterRule | backend/core/insights.py:334-353 | a critical cluster insight exactly for a class with at least three high-risk students |
| Insights.ComputeAtRiskInsights | backend/core/insights.py:276-355 | the method builds the at-risk insights |
| Insights.HighLabelsBounded | backend/core/insights.py:322-332 | a class's high-risk students are at most its students |
| Insights.LabelsAppend | backend/core/insights.py:325-332 | the class labels of a concatenation concatenate |
| Insights.OccAppend | backend/core/insights.py:325-332 | occurrences add over concatenation |
| Insights.ClustersSpec | backend/core/insights.py:321-353 | every cluster insight is critical, names a class with at least three high-risk students with that count and the class size, which is at least as large; every such class gets one |
| Insights.OccPositive | backend/core/insights.py:334 | a key that occurs is in the list |
| Insights.NoStudentsNoInsights | backend/core/insights.py:289-290 | no at-risk students, no at-risk insights |
| Insights.TopRule | backend/core/insights.py:372-390 | an info insight exactly for a top student averaging at least 80 |
| Insights.StrongRule | backend/core/insights.py:448-465 | an info insight exactly for a subject pass rate of at least 85 |
| Insights.TrendInsight | backend/core/insights.py:467-494 | an info insight exactly with two terms and the last term's mean more than 2 above the first's |
| Insights.WithPct | backend/core/insights.py:394-415 | adding the percentage keeps every row |
| Insights.ImprovingRule | backend/core/insights.py:419-446 | an insight exactly when the student has two term means in calendar order and their slope exceeds 3 |
| Insights.ComputeImprovingInsights | backend/core/insights.py:417-446 | the loop over students builds the improving insights |
| Insights.ComputePositiveInsights | backend/core/insights.py:360-496 | the method builds the positive insights |
| Insights.TopPerformersSpec | backend/core/insights.py:371-375 | at most three top performers are named, each averaging at least 80 |
| Insights.CorrelationRule | backend/core/insights.py:509-532 | an insight exactly for \|r\| > 0.6 and p < 0.05, both rounded, a missing value reading as 0 |
| Insights.MissingPValuePasses | backend/core/insights.py:47-52 | a strong coefficient with a missing p-value is reported, because the missing value reads as 0 (also lines 510-512) |
| Insights.SeverityLeTotalPreorder | backend/core/insights.py:573-574 | the severity order is a total preorder |
| Insights.CategoryList | backend/core/insights.py:579-581 | one category per insight |
| Insights.SeverityList | backend/core/insights.py:579-582 | one severity per insight |
| Insights.Items | backend/core/insights.py:585-592 | one summary item per insight |
| Insights.ComputeAssemble | backend/core/insights.py:562-570 | the method concatenates the five families in order |
| Insights.GenerateAllInsights | backend/core/insights.py:539-593 | the method builds the report of all insights, over the corrected class lookup and the guarded term result (see Findings) |
| Insights.ComputeAllInsights | backend/core/insights.py:556-570 | the method runs the analyses and builds all insights, over the corrected class lookup and the guarded term result (see Findings) |
| Insights.BuildReport | backend/core/insights.py:572-593 | the method sorts, counts and summarises the insights |
| Insights.CorrelationLoop | backend/core/insights.py:509-532 | the loop builds the correlation insights |
| Insights.ReportSpec | backend/core/insights.py:572-593 | the report lists the insights critical first, then warnings, then info, keeping generation order within a severity; the total is their number and the category and severity counts are those of the list and add up to it |
| Insights.PerformanceRenderable | backend/core/insights.py:65-187 | every performance story can be rendered |
| Insights.SubjectFailRenderable | backend/core/insights.py:164-185 | every subject failure story can be rendered |
| Insights.GenderRenderable | backend/core/insights.py:197-215 | significant gender gaps with p-values give renderable stories |
| Insights.ClassRenderable | backend/core/insights.py:217-234 | significant class gaps with p-values give renderable stories |
| Insights.GapReportRenderable | backend/core/insights.py:192-271 | a gap report whose significant results carry p-values gives renderable stories |
| Insights.PositiveRenderable | backend/core/insights.py:360-496 | every positive story can be rendered |
| Insights.RiskRenderable | backend/core/insights.py:276-355 | every at-risk story can be rendered |
| Insights.CorrelationRenderable | backend/core/insights.py:501-534 | every correlation story can be rendered |
| Insights.AssembleRenderable | backend/core/insights.py:562-570 | the other families narrate only renderable stories |
| Insights.AnalysisRenderable | backend/core/insights.py:559-563 | the gap analysis gives renderable gap stories |
| Insights.AllRenderable | backend/core/insights.py:539-593 | every story the engine produces can be rendered, since narrated significant gaps carry p-values |
| Insights.RiskPlain | backend/core/insights.py:276-355 | at-risk insights are risk summaries or class clusters |
| Insights.ImprovingPlain | backend/core/insights.py:417-446 | improving insights are most-improved stories |
| Insights.UrgentHasRecommendation | backend/core/narrative.py:262-266 | a critical or warning insight brings its recommendation into the priority paragraph |
| Narrative.UrgencyOf | backend/core/narrative.py:142-147 | "alarming" exactly above 25%, "immediate" exactly in (15, 25], "monitoring" exactly at most 15 |
| Narrative.UrgencyMonotone | backend/core/narrative.py:142-147 | a larger high-risk share never reads as less urgent |
| Narrative.Lagging | backend/core/narrative.py:75-80 | the girls lag exactly when the direction says the girls underperform |
| Narrative.LaggingHasLowerMean | backend/core/narrative.py:75-80 | for a sound gender result the lagging group has the lower mean |
| Narrative.SubjectNote | backend/core/narrative.py:82 | the note is empty exactly for the overall result, and otherwise ends with the subject |
| Narrative.ToneOf | backend/core/narrative.py:205-212 | "positive" exactly for r > 0, "very strong" exactly for \|r\| > 0.8, "well" exactly with a positive direction |
| Narrative.ToneSymmetric | backend/core/narrative.py:205-206 | opposite non-zero coefficients get opposite directions and the same strength |
| Narrative.RiskSummaryCloses | backend/core/narrative.py:139-152 | the risk summary ends with the sentence its high-risk share calls for |
| Narrative.GenderStoryCloses | backend/core/narrative.py:67-90 | the gender narrative ends by naming the lagging group |
| Narrative.Titles | backend/core/narrative.py:239-256 | the titles of the items, in order |
| Narrative.Recommendations | backend/core/narrative.py:262 | the recommendations of the items, in order |
| Narrative.FilterEmpty | backend/core/narrative.py:224-254 | a filter is empty exactly when no element qualifies |
| Narrative.PriorityItemsEmpty | backend/core/narrative.py:262-263 | there are no priority items exactly when no item is critical or a warning with a recommendation |
| Narrative.ParagraphsSpec | backend/core/narrative.py:228-266 | the summary opens with the insight and category counts, and holds the critical, concern, encouraging and priority paragraphs each exactly when an insight of its kind exists, and nothing else |
| Narrative.SectionMembers | backend/core/narrative.py:238-266 | a conditional paragraph is present exactly when its condition holds |
| Narrative.ParagraphsMembers | backend/core/narrative.py:228-266 | the paragraphs present, in terms of the filtered lists |
| Narrative.SectionsSpec | backend/core/narrative.py:238-258 | each titled paragraph names the first three titles of its kind, in order |
| Narrative.PrioritiesSpec | backend/core/narrative.py:262-266 | at most three recommendations, none empty, each from a critical or warning insight |
| Narrative.ParagraphTexts | backend/core/narrative.py:268 | one text per paragraph |
| Narrative.JoinHead | backend/core/narrative.py:268 | a join starts with its first part |
| Narrative.ExecutiveSummarySpec | backend/core/narrative.py:219-268 | without insights the fixed notice; otherwise the summary starts with the opening paragraph |
| AiInsights.CoercedNumbersSpec | backend/core/ai_insights.py:51-57 | one number kept per row that holds a number: every number of the column is kept and nothing else is |
| AiInsights.InfoGet | backend/core/ai_insights.py:54 | a found value is stored under the key; a missing key is stored nowhere |
| AiInsights.TrendPointsSpec | backend/core/ai_insights.py:59-64 | one point per term line with a mean, each carrying that line's term and rounded mean, and no other point |
| AiInsights.ScoredSpec | backend/core/ai_insights.py:98-102 | one entry per subject with a score, each carrying that subject and its rounded score, and no other entry |
| AiInsights.Keep3 | backend/core/ai_insights.py:114-116 | at most three distinct notes, each one of the input notes |
| AiInsights.OverallNotes | backend/core/ai_insights.py:70-76 | a strength exactly at 75 or more; a concern and its recovery plan exactly under the pass mark |
| AiInsights.ClassNotes | backend/core/ai_insights.py:78-83 | a strength exactly 5 or more above the class mean; otherwise a concern and a follow-up exactly 5 or more under it |
| AiInsights.TrendNotes | backend/core/ai_insights.py:85-93 | a strength exactly for a rise of 3 or more; otherwise a concern and a review exactly for a fall of 3 or more |
| AiInsights.SubjectNotes | backend/core/ai_insights.py:95-111 | the best subject as a strength when one is scored; the weakest as a concern, with extra practice, when two or more are |
| AiInsights.Notes | backend/core/ai_insights.py:66-111 | the four rules in order build the raw strengths, concerns and recommendations |
| AiInsights.StudentMetrics | backend/core/ai_insights.py:42-133 | the method builds the student's metrics |
| AiInsights.MetricsFound | backend/core/ai_insights.py:43-45 | metrics exist exactly when the student has a profile, and carry the requested id and pass mark (also lines 118-126) |
| AiInsights.QuadNoDups | backend/core/ai_insights.py:66-111 | four different notes appended conditionally are distinct, one per rule that fires |
| AiInsights.QuadSpec | backend/core/ai_insights.py:114-116 | de-duplication removes nothing, and the cut to three drops the fourth note exactly when all four rules fire |
| AiInsights.StrengthsSpec | backend/core/ai_insights.py:70-114 | each strength is kept exactly when its rule fires, the subject strength only when not all three earlier ones do |
| AiInsights.StrengthValues | backend/core/ai_insights.py:88-107 | the trend strength carries the rise, the subject strength the best-ranked subject and its score |
| AiInsights.ConcernsSpec | backend/core/ai_insights.py:74-115 | each concern is kept exactly when its rule fires, the subject concern only when not all three earlier ones do |
| AiInsights.ConcernValues | backend/core/ai_insights.py:88-110 | the trend concern carries the fall, the subject concern the lowest-ranked subject and its score |
| AiInsights.ActionsFollowConcerns | backend/core/ai_insights.py:74-116 | there are as many recommendations as concerns, each given exactly when its concern is raised |
| AiInsights.RankedBounds | backend/core/ai_insights.py:97-110 | the ranking holds the scored subjects; the strongest has the best score and the weakest the lowest |
| AiInsights.BuildSummaryParts | backend/core/ai_insights.py:145-152 | the method builds the summary sentences |
| AiInsights.SummaryPartsSpec | backend/core/ai_insights.py:145-152 | one sentence per known average between the opening and the pass-mark sentence |
| AiInsights.JoinEndsWithLast | backend/core/ai_insights.py:156 | a join ends with its last part |
| AiInsights.SummaryCloses | backend/core/ai_insights.py:152-156 | the summary ends with the pass-mark sentence and is never empty |
| AiInsights.SettingsError | backend/core/ai_insights.py:176-177 | `AI_TIMEOUT_SECONDS` (default "20") is converted before `AI_TEMPERATURE` (default "0.2"); the first that is not a number gives its `ValueError` message, and there is none exactly when both are numbers |
| AiInsights.DefaultSettingsParse | backend/core/ai_insights.py:176-177 | with neither setting given, the defaults convert and no setting fails |
| AiInsights.CallOpenAi | backend/core/ai_insights.py:173-179 | a setting that is not a number fails first with its `ValueError`; then a blank key fails with "OPENAI_API_KEY is not set."; otherwise the call gives the provider's reply |
| AiInsights.StrengthTexts | backend/core/ai_insights.py:157 | one text per strength |
| AiInsights.ConcernTexts | backend/core/ai_insights.py:158 | one text per concern |
| AiInsights.ActionTexts | backend/core/ai_insights.py:159 | one text per recommendation |
| AiInsights.NotFoundSpec | backend/core/ai_insights.py:269-271 | the not-found error, with the requested id, exactly without a profile; otherwise a summary with the student's id and pass mark |
| AiInsights.RespondCarriesMetrics | backend/core/ai_insights.py:273-287 | every response for a found student is a summary carrying its id and pass mark |
| AiInsights.DisabledIsDeterministic | backend/core/ai_insights.py:273-282 | unless AI is on with the openai provider, the summary is deterministic whatever the AI would reply |
| AiInsights.AiOutcomeSpec | backend/core/ai_insights.py:173-179 | with AI on, a setting that is not a number, a missing key or a failing call gives the deterministic summary marked as a fallback with the error; a reply is used with each list cut to three and the metrics attached (also lines 242-258 and 279-287) |
| AiInsights.DeterministicSpec | backend/core/ai_insights.py:136-170 | a deterministic summary is never empty, ends with the pass mark, lists at most three notes of each kind and always names a class ("N/A" when unknown) |
| ReportBuilder.EnsurePctSpec | backend/core/report_builder.py:102-114 | every row keeps its other cells; an existing percentage column, or a table without a score column, is kept as it is; otherwise the percentage is derived per row; a second call changes nothing |
| ReportBuilder.ReportPctAgrees | backend/core/report_builder.py:106-109 | with a positive max the report builder derives the analytics engines' percentage; with a zero max it gives none where they fall back to the score |
| ReportBuilder.WordStart | backend/core/report_builder.py:125 | the start of the last word: a non-blank run to the end, after a blank or at the start |
| ReportBuilder.WordStartUnique | backend/core/report_builder.py:125 | that start is the only position with those properties |
| ReportBuilder.AppendWord | backend/core/report_builder.py:125 | a word after a blank is split off as the last word |
| ReportBuilder.AppendBlank | backend/core/report_builder.py:125 | trailing blanks split off nothing |
| ReportBuilder.PrependBlank | backend/core/report_builder.py:125 | leading blanks split off nothing |
| ReportBuilder.PrependBlankSpace | backend/core/report_builder.py:125 | the step of that proof for a text ending in a blank |
| ReportBuilder.WordsSpace | backend/core/report_builder.py:125 | a trailing blank splits off nothing |
| ReportBuilder.PrependBlankWord | backend/core/report_builder.py:125 | the step of that proof for a text ending in a word |
| ReportBuilder.WordsLast | backend/core/report_builder.py:125 | the words of a text ending in a word are the words before it and that word |
| ReportBuilder.BlankWords | backend/core/report_builder.py:125-127 | a blank text has no words |
| ReportBuilder.TrimWords | backend/core/report_builder.py:120-125 | stripping does not change the words |
| ReportBuilder.JoinSnoc | backend/core/report_builder.py:130 | joining one more word adds the separator and the word |
| ReportBuilder.WordsOfJoin | backend/core/report_builder.py:125-130 | splitting words joined by single blanks gives the words back |
| ReportBuilder.WordsAreWords | backend/core/report_builder.py:125 | every split word is non-empty and has no blank |
| ReportBuilder.UpperLetters | backend/core/report_builder.py:130-132 | upper-casing letters gives upper-case letters |
| ReportBuilder.LastWord | backend/core/report_builder.py:125-128 | the last split word is the suffix after the last blank, and the others are the words before it |
| ReportBuilder.LevelLosingLetter | backend/core/report_builder.py:129-130 | the level of the first rule is the words of the label without its final letter |
| ReportBuilder.JoinThenWord | backend/core/report_builder.py:130 | joining words and adding a word after a blank gives the words back with the new one |
| ReportBuilder.LevelLosingWord | backend/core/report_builder.py:131-132 | the level of the second rule is the words before the last word |
| ReportBuilder.LetterTailSplits | backend/core/report_builder.py:129-130 | the first rule splits off the last letter of a last word with a digit |
| ReportBuilder.LetterTailStream | backend/core/report_builder.py:130 | that stream is the upper-cased final letter |
| ReportBuilder.LetterTailLevel | backend/core/report_builder.py:130 | that level is the rest of the label |
| ReportBuilder.LetterWordSplits | backend/core/report_builder.py:131-132 | the second rule splits off a short all-letter last word after another word |
| ReportBuilder.LetterEndSplits | backend/core/report_builder.py:133-134 | the third rule splits off the final letter of a label with a digit |
| ReportBuilder.SplitLabelSpec | backend/core/report_builder.py:122-135 | a non-blank label other than "N/A" gives a stream of "N/A" with the whole label as level, or a stream of one or two upper-case letters ending the label with the rest of the label as level |
| ReportBuilder.SplitPartsSpec | backend/core/report_builder.py:128-135 | the rule that applies first gives such a split |
| ReportBuilder.SplitByFirstRule | backend/core/report_builder.py:129-130 | the split when the first rule applies |
| ReportBuilder.SplitBySecondRule | backend/core/report_builder.py:131-132 | the split when only the second rule applies |
| ReportBuilder.SplitByLastRules | backend/core/report_builder.py:133-135 | the split when neither of the first two rules applies |
| ReportBuilder.NoSplit | backend/core/report_builder.py:135 | a label no rule applies to is its own level with no stream |
| ReportBuilder.SplitClassStreamSpec | backend/core/report_builder.py:117-135 | every class value splits into a level and a stream as described |
| ReportBuilder.SplitNotAvailable | backend/core/report_builder.py:120-122 | None, "" and "N/A" give ("N/A", "N/A") |
| ReportBuilder.WordsForm | backend/core/report_builder.py:125 | "Form " splits into ["Form"] |
| ReportBuilder.WordsForm2A | backend/core/report_builder.py:125 | "Form 2A" splits into ["Form", "2A"] |
| ReportBuilder.SplitForm2A | backend/core/report_builder.py:118-119 | "Form 2A" gives ("Form 2", "A"), the documented example |
| ReportBuilder.SplitLabelForm2A | backend/core/report_builder.py:118-130 | the same for the stripped label |
| ReportBuilder.JoinForm2 | backend/core/report_builder.py:130 | the level of "Form 2A" is "Form 2" |
| ReportBuilder.BandMonotone | backend/core/report_builder.py:282-285 | a higher score never lands in a lower band (also lines 450-455, 953 and 1091-1094) |
| ReportBuilder.BandSpec | backend/core/report_builder.py:282-285 | the top band exactly from 70, the middle exactly from the pass mark below 70, the bottom exactly below both (also lines 450-455, 953 and 1091-1094) |
| ReportBuilder.ChartValues | backend/core/report_builder.py:281 | one bar per subject, a missing score read as 0 |
| ReportBuilder.ExcelFill | backend/core/report_builder.py:1091-1097 | a row is filled exactly when its percentage cell reads as a number |
| ReportBuilder.SitesAgree | backend/core/report_builder.py:282-285 | the chart colour, the row background, the meaning and the Excel fill all follow the same band, and each tells the three bands apart (also lines 450-455, 953 and 1091-1094) |
| ReportBuilder.ScoreOfRow | backend/core/report_builder.py:446-449 | a short row gives no score |
| ReportBuilder.ColorCodedStyles | backend/core/report_builder.py:431-456 | the loop appends, after the base commands, the row backgrounds of the data rows |
| ReportBuilder.RowStylesRows | backend/core/report_builder.py:445-456 | only backgrounds of data rows are added |
| ReportBuilder.RowStylesSpec | backend/core/report_builder.py:445-456 | row k gets a background exactly when it is a data row whose score cell reads as a number, in the colour of that score's band |
| ReportBuilder.RowStylesOrdered | backend/core/report_builder.py:445-456 | the backgrounds come in row order, one per row |
| ReportBuilder.PercentTextUnparsed | backend/core/report_builder.py:446-449 | a number followed by "%" does not read as a number (also line 954) |
| ReportBuilder.PercentEndUnsigned | backend/core/report_builder.py:446-449 | a text ending in "%" is no unsigned number |
| ReportBuilder.SubjectRowsAsWritten | backend/core/report_builder.py:949-954 | the header and at most twelve rows |
| ReportBuilder.UnscoredNoStyles | backend/core/report_builder.py:446-449 | with no readable score cell no row is coloured |
| ReportBuilder.SubjectTableUncoloured | backend/core/report_builder.py:949-958 | the subject table as written, with "%"-suffixed score cells, colours none of its rows (also lines 446-449) |
| ReportBuilder.SubjectRows | backend/core/report_builder.py:949-954 | the header and at most twelve rows |
| ReportBuilder.SubjectTableColoured | backend/core/report_builder.py:949-958 | with the score in its cell every shown subject's row is named, carries its band's meaning and gets its band's colour |
| ReportBuilder.BreakdownSpec | backend/core/report_builder.py:947-968 | no table exactly without subjects; otherwise at most twelve rows in input order, with the note exactly when subjects were cut; the table is the corrected one (see Findings) |
| ReportBuilder.RemarkSpec | backend/core/report_builder.py:866-871 | the remark never worsens as the mean rises; excellent exactly from 75, good progress exactly from the pass mark below 75, below target exactly below both; a missing mean reads as 0 |
| ReportBuilder.SubjectPairs | backend/core/report_builder.py:858 | one pair per subject, a missing score read as 0 |
| ReportBuilder.ScoreGeTotal | backend/core/report_builder.py:857-861 | "score at least" is a total preorder |
| ReportBuilder.BestAndWeakestSpec | backend/core/report_builder.py:854-863 | none exactly without subject scores; otherwise the best has the highest score and is the first with it, the weakest the lowest and is the last with it |
| ReportBuilder.BestIsFirst | backend/core/report_builder.py:857-862 | the head of the stable descending sort is a maximum and the first pair with its score |
| ReportBuilder.WeakestIsLast | backend/core/report_builder.py:857-863 | the last of it is a minimum and the last pair with its score |
| ReportBuilder.SubjectHighlights | backend/core/report_builder.py:854-855 | "N/A" for both without subject scores |
| Upload.Live | backend/routes/upload.py:90-98 | the purge keeps exactly the sessions that have not expired, unchanged |
| Upload.LiveSpec | backend/routes/upload.py:90-98 | purging twice at the same time removes nothing more, and a later purge keeps no session an earlier one removed |
| Upload.UnlinkPath | backend/routes/upload.py:69-85 | a file is deleted only when it is the session's own path and a file of the upload directory |
| Upload.SessionStore.constructor | backend/routes/upload.py:26-27 | the store starts with the given sessions |
| Upload.SessionStore.DropSession | backend/routes/upload.py:77-87 | the entry is removed, if any, and its file is deleted exactly when it existed, deletion was asked for and the path is an upload file |
| Upload.SessionStore.PurgeExpiredSessions | backend/routes/upload.py:90-98 | the store becomes its live part, and the files deleted are exactly those of the expired sessions that are upload files |
| Upload.BaseName | backend/routes/upload.py:111 | the final component: a suffix of the path without '/', after a '/' unless it is the whole path |
| Upload.LastDot | backend/routes/upload.py:111 | the last '.' of the name, or -1 when there is none |
| Upload.AllowedAreExtensions | backend/routes/upload.py:112 | the four accepted types are extensions |
| Upload.SuffixEnds | backend/routes/upload.py:111 | a non-empty suffix ends the name after something |
| Upload.SuffixIs | backend/routes/upload.py:111 | a name ending in an extension after something has that suffix |
| Upload.ExtensionSpec | backend/routes/upload.py:111-113 | a file is accepted exactly when its name, lower-cased, ends with ".csv", ".xlsx", ".xls" or ".ods" after something |
| Upload.AcceptedEnds | backend/routes/upload.py:111-113 | an accepted name ends with its accepted suffix |
| Upload.EndsAccepted | backend/routes/upload.py:111-113 | a name ending with an accepted extension after something is accepted |
| Upload.PriorityRank | backend/routes/upload.py:45-58 | a listed field's rank is its place in the priority list; an unlisted field ranks exactly at its length plus 100 (also lines 189 and 196) |
| Upload.RankLeTotal | backend/routes/upload.py:194-197 | the priority order is a total preorder |
| Upload.Fields | backend/routes/upload.py:184 | the field names of the mapping, in order |
| Upload.TargetsOf | backend/routes/upload.py:184-186 | a source has no more targets than the mapping has entries |
| Upload.ResolveMapping | backend/routes/upload.py:188-202 | the same fields in the same order, each with its resolved choice |
| Upload.SourceToTargets | backend/routes/upload.py:183-186 | the first loop's table lists exactly the non-blank sources, each with the fields that chose it in mapping order |
| Upload.InvertStep | backend/routes/upload.py:184-186 | one step of that loop keeps the table inverted |
| Upload.TargetsOfSpec | backend/routes/upload.py:184-186 | a field is among a source's targets exactly when it chose that non-blank source |
| Upload.TargetEntry | backend/routes/upload.py:184-186 | a listed target chose the source |
| Upload.EntryTarget | backend/routes/upload.py:184-186 | a field with a non-blank source is listed under it |
| Upload.ClearStep | backend/routes/upload.py:198-200 | one step of the inner loop clears a loser and keeps the best |
| Upload.TargetsNoDups | backend/routes/upload.py:184-186 | a source's targets are distinct |
| Upload.FieldEntry | backend/routes/upload.py:184 | a field names one entry |
| Upload.ClearLosers | backend/routes/upload.py:198-200 | the inner loop sets every field but the best to "" for one source |
| Upload.WhileDone | backend/routes/upload.py:198-200 | once every field of a source is handled, that source is done |
| Upload.SoleTarget | backend/routes/upload.py:192-193 | a source with one field is left as it is |
| Upload.InitialTable | backend/routes/upload.py:188 | the copy of the mapping has no source resolved yet |
| Upload.AllDoneAt | backend/routes/upload.py:191-200 | with every source done an entry holds its resolved choice |
| Upload.SourceKey | backend/routes/upload.py:183-186 | the table has an entry for each shared source |
| Upload.BuiltKeyed | backend/routes/upload.py:183-186 | the built table covers every shared source |
| Upload.AllDoneEntries | backend/routes/upload.py:191-200 | once every source is done each entry holds its resolved choice |
| Upload.AllDone | backend/routes/upload.py:202 | such a table is the resolved mapping |
| Upload.ResolveDuplicates | backend/routes/upload.py:183-202 | both loops together give the resolved mapping |
| Upload.TargetsAppend | backend/routes/upload.py:184-186 | the targets of a concatenation concatenate |
| Upload.PosAt | backend/routes/upload.py:184-186 | an entry sits at its position among its source's targets |
| Upload.PosOrder | backend/routes/upload.py:184-186 | earlier entries come earlier among the targets |
| Upload.BestIsFirstMin | backend/routes/upload.py:194-197 | the head of the stable priority sort is the first field of least rank |
| Upload.FirstBestAt | backend/routes/upload.py:194-197 | an entry is first-best exactly when it is the first of least rank among its source's targets |
| Upload.FirstBestIsMin | backend/routes/upload.py:194-197 | a first-best entry is the first of least rank in its source's list |
| Upload.TargetRank | backend/routes/upload.py:194-197 | every target of the source ranks no better than a first-best entry, and earlier ones rank worse |
| Upload.MinIsFirstBest | backend/routes/upload.py:194-197 | the first of least rank in the list is first-best |
| Upload.ResolveSpec | backend/routes/upload.py:183-202 | an entry without a non-blank source keeps its choice; one with a source keeps it exactly when it is the first of least priority rank among the fields that chose it, and otherwise gets "" |
| Upload.OneKeeps | backend/routes/upload.py:183-202 | every chosen non-blank source is kept by exactly one of the fields that chose it |
| Upload.ResolvedUnique | backend/routes/upload.py:183-202 | after the resolution no two fields share a non-blank source |
| Upload.SoleChoiceKeeps | backend/routes/upload.py:191-193 | a field that alone chose its source keeps it |
| Upload.RenameMapSpec | backend/routes/upload.py:236 | a column is renamed exactly when some field chose it, and to the last such field |
| Upload.RenameInjective | backend/routes/upload.py:236 | with distinct fields no two columns get the same name |
| Upload.RenameResolved | backend/routes/upload.py:183-202 | after the resolution a column chosen by several fields is renamed to the field that kept it (also line 236) |
| Upload.WideMapping | backend/routes/upload.py:225-228 | the wide mapping is exactly the identifier fields whose choice names a column |
| Upload.MappedHas | backend/routes/upload.py:229-233 | every chosen column survives the reshape as an identifier column |
| Upload.WideRenameSpec | backend/routes/upload.py:224-233 | on a wide sheet exactly the columns chosen for an identifier field are renamed, each to an identifier field |
| Reports.Collapse | backend/routes/reports.py:49 | the substitution leaves only characters of `[A-Za-z0-9._-]` |
| Reports.CollapseAppend | backend/routes/reports.py:49 | the substitution of a concatenation is the concatenation of the pieces' substitutions, the second read after the first |
| Reports.CollapseTokens | backend/routes/reports.py:49 | a string of allowed characters is left unchanged |
| Reports.CollapseInRun | backend/routes/reports.py:49 | more disallowed characters inside a run add nothing |
| Reports.CollapseEnterRun | backend/routes/reports.py:49 | a run of disallowed characters becomes a single "_" |
| Reports.CollapseRun | backend/routes/reports.py:49 | a maximal run of disallowed characters between two pieces becomes exactly one "_" |
| Reports.SafeTokenSpec | backend/routes/reports.py:47-50 | the token is the fallback or well formed (non-empty, allowed characters only, no '.', '_' or '-' at either end); with a well-formed fallback it is always well formed, and with a non-empty one never empty |
| Reports.TokenFixed | backend/routes/reports.py:47-50 | a well-formed token is its own token |
| Reports.SafeTokenIdempotent | backend/routes/reports.py:47-50 | making a token of a token changes nothing, for the "class" and "student" fallbacks alike (also lines 125 and 156) |
| Reports.SeparatorsFallBack | backend/routes/reports.py:49-50 | a value made only of '.', '_' and '-' gives the fallback |
| Reports.StripLeftAll | backend/routes/reports.py:49 | stripping a string made only of those characters leaves nothing |
| Reports.SchoolValues | backend/routes/reports.py:39-41 | the column's values, trimmed, without the missing or blank ones |
| Reports.ModeAmongSpec | backend/routes/reports.py:43 | the pick is one of the candidates and beats each of them |
| Reports.ModeSpec | backend/routes/reports.py:43 | the mode is a value that no value outnumbers, the smallest of those as frequent, and the only value that is both |
| Reports.SchoolFromNone | backend/routes/reports.py:37-44 | with no usable column the configured name is returned |
| Reports.SchoolFromFirst | backend/routes/reports.py:37-43 | otherwise the first usable column's mode is returned |
| Reports.SchoolNameSpec | backend/routes/reports.py:35-44 | the school name is the mode of the first school column that has a non-blank value, or the configured name when there is none |
| Reports.SchoolValuesTrimmed | backend/routes/reports.py:39 | the school values are already trimmed |
| Reports.FirstPresentSpec | backend/routes/reports.py:111-115 | no class column is found exactly when none of the candidates is a column; otherwise the one found is the first candidate that is a column |
| Reports.SelectClassSpec | backend/routes/reports.py:102-122 | only 400 and 404 are refused; the 400 for a missing class column happens exactly when data and name are given and none of "class", "grade", "stream", "form" is a column; a 404 happens exactly when no row of the first class column matches; otherwise the kept rows are exactly those whose class, trimmed and lower-cased, equals the trimmed lower-cased name |
| Reports.SelectClassInsensitive | backend/routes/reports.py:120 | names equal once trimmed and lower-cased select the same rows |

## Left out

- **File reading and writing.** `parse_upload` (the pandas, openpyxl, xlrd and odf readers), the chunked upload writes, the sample loader and the report files. These are file-system I/O. Deleting a session's file is modelled as the method's result, the path to delete. The file-system test `_is_temp_upload_file` is a parameter.
- **Document rendering.** Charts, PDF layout and the Excel workbook go through matplotlib, ReportLab and openpyxl. Only the decisions that feed them are modelled: bands, colours, remarks, table rows and the row cap.
- **The OpenAI request** in `_call_openai_parent_summary`. It is network I/O, so outside the model its outcome is an oracle that returns a text or fails. The environment settings (`AI_ENABLED`, `AI_PROVIDER`, the API key, `AI_TIMEOUT_SECONDS` and `AI_TEMPERATURE`) are a parameter record. The timeout and temperature are only converted, since their values go into the request.
- **scipy.** `ttest_ind`, `f_oneway`, `pearsonr` and `DataFrame.corr` are computed outside the model. Their statistics and p-values are inputs.
- **Floating point.** Numbers are exact reals, and NaN and infinity are the missing cell. `round` is round-half-even on the exact value, so the cases where a binary float rounds the other way are not captured. The square root, the sample variance and `Series.std` are uninterpreted, with the laws listed above.
- **Medians and quartiles.** These are the subject statistics' median and quartiles and the term comparison's medians. They are pandas results that no other output depends on.
- Grading.ClampScore: a NaN score reads as missing and grades "-". In the source, `max(0.0, min(100.0, nan))` gives 100, so NaN grades "A".
- **Tie order of `sort_values`.** `sort_values` is modelled as a stable sort. pandas does not promise an order for ties, so where ties occur the model picks one.
- Risk.TermSlope: a term whose mean is missing is left out of the fit rather than passed to `np.polyfit` as NaN.
- **Missing columns in insights.** Where the source would raise `KeyError` on a missing `percentage` or score column, the model reads the missing column as missing cells. This affects the improvement rule of the positive insights and the engines that index `df["percentage"]`.
- **Route glue.** The HTTP handlers' request parsing, the `No data provided` guards of the school, student and Excel routes, the `FileResponse` objects, the report ids from `uuid4` and the report paths are left out. So are the other route files and the application setup.
- **Runtime services.** `time()` is the parameter `now`, and the environment settings (`PASS_MARK`, `SCHOOL_NAME`) are parameters. The handlers run one at a time: concurrent requests sharing the session table are not modelled.
- Upload.SessionStore.PurgeExpiredSessions: the expired sessions are dropped in an arbitrary order rather than the dictionary's insertion order. Neither the final table nor the set of deleted files depends on that order.
- Upload.BaseName: `Path` is read as a `/`-separated path, without Windows separators or normalisation.
- **Mapping values.** A mapping value that is not a string counts as `None`, matching the source's `isinstance(source, str)` test. `confirm_mapping`'s DataFrame rename and `concat` are modelled through the rename map and the column list.
- Reports.SelectClass: the class name is taken to be a string; the source's `str(class_name)` of any other JSON value is not modelled.
- ReportBuilder.ColorCodedStyles: the score column is a non-negative index; a negative Python index counting from the end is not modelled.
- **Text.** Case mapping, `strip()`, `title()` and `split()` are ASCII-only. The whitespace set is Python's ASCII one (space, \t, \n, \v, \f, \r and \x1c to \x1f); Unicode case rules and Unicode whitespace such as \x85 or \xa0 are not modelled.
- **Display strings.** `_student_display` formatting and the f-string number formatting in the narratives are parameters or left abstract, as is `str` of a float in the parent summary.
- Risk.StudentSignals: the student's class statistics are found with the corrected lookup by class value (first Findings row). For a numeric class label the model can add the class-deviation factor, which the code as written never adds. For text labels the two lookups agree (Risk.TextClassLookupAgrees).
- Risk.AssessStudents: runs Risk.StudentSignals, so it has the same corrected class lookup for numeric class labels.
- Risk.ComputeRiskScores: has the same corrected class lookup, through Risk.AssessStudents.
- Risk.ScoreTable: has the same corrected class lookup, through Risk.AssessStudents.
- Gaps.ComputeGapAnalysis: uses the guarded term result (second Findings row). With two terms and no term holding a score, the model reports no term gap, while the code as written raises `IndexError`.
- Gaps.GapAnalysisSpec: states the properties of that guarded analysis, so the `IndexError` case is not among its outcomes.
- Insights.ComputeAllInsights: builds on the corrected class lookup and the guarded term result, so it has both differences above.
- Insights.GenerateAllInsights: has the same two differences as Insights.ComputeAllInsights.
- ReportBuilder.SubjectBreakdown: builds the corrected subject table (third Findings row), with numeric score cells that colour each row by its band. The code as written writes `f"{score:.1f}%"` text cells, and so no row gets a colour.
- ReportBuilder.BreakdownSpec: talks about the corrected subject table (third Findings row). That table has numeric score cells, each row coloured by its band. The code as written writes `f"{score:.1f}%"` text cells, and so no row gets a colour.
- Frames.NumToString: an integral value is written as an integer, as pandas writes an int64 column. A float64 column (a numeric column with any missing value, or one holding a fraction) writes it as "1.0", and that case is not modelled. Other values get at most six decimal places, not Python's shortest round-trip form. So where class labels are compared as text, a float-typed class column differs. For example, with classes 1, 2 and a missing one and the class name "1", the source's class report finds no rows, while the model keeps the rows of class 1.
- Frames.CellString: writes a missing cell as "nan". pandas writes a JSON null in a text column as "None", and that is not modelled.
- Frames.ParseDecimal: reads `[±]digits[.digits][e[±]digits]` with surrounding whitespace. The spellings "inf", "infinity" and "nan" are read as no number, where pandas gives an infinite value or NaN. NaN reads as a missing cell either way.
- AiInsights.CallOpenAi: converts the timeout and temperature with the same reader as Frames.ParseDecimal. So an underscore-grouped number such as "1_0", or "inf", counts as a `ValueError`, although Python's `float()` accepts it. The error message quotes the text in plain single quotes, without `repr`'s escaping.
- Insights.Insight: the `supporting_data` payload of each insight is not a field. Most of it repeats the template arguments the narration carries: the gap records exactly, and the means, rates, counts and names of the other rules. The rest is a rounded difference of two of those arguments. What the narration does not carry is not modelled: the subject fail-rate rule's fail count and record count, and the most-improved rule's rounded slope.
- Parser.MetadataColumns: the helper columns are taken in one fixed order. The source iterates a Python set, whose order is not specified, so the order of the melt's identifier columns may differ from the model's.

## Findings

| source | as written | input that shows it | evidently intended | confidence | as-written member | corrected member |
|---|---|---|---|---|---|---|
| backend/core/risk.py:240-243 | `class_stats` is keyed by the raw class value (lines 129-132) but looked up with `str(...)` of the student's class | a class column holding numbers (e.g. 1, 2): `"1" in {1: ...}` is false, so the class-deviation factor never fires | the student's own class statistics are found whatever the label's type | not executed | Risk.ClassLookupAsWritten, Risk.NumericClassNeverFound | Risk.ClassLookup |
| backend/core/gaps.py:276-289 | `sorted_terms[0]` is read without checking that any term had a score | a term column with two distinct terms and no numeric percentage: `term_means` is empty and the index raises `IndexError` | no term gap is reported when no term has a score | not executed | Gaps.TermGapsAsWritten, Gaps.TermIndexErrorWithoutScores | Gaps.TermGaps, Gaps.TermGapsSpec |
| backend/core/report_builder.py:949-958 | the student report's subject table passes scores as `"78.0%"` strings to `_color_coded_table`, which colours a row only when `float(cell)` parses (lines 445-456) | any scored subject: `float("78.0%")` raises, so no row of the table is coloured | each subject row coloured by its score band | not executed | ReportBuilder.SubjectRowsAsWritten, ReportBuilder.SubjectTableUncoloured | ReportBuilder.SubjectRows, ReportBuilder.SubjectTableColoured |
