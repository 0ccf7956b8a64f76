/** The server-side Google Sheets sync: the record it is given, the
    54-cell row it appends, its header list, the decision to write that
    header list, and its configuration. */
module SheetsService {
  import opened JsValues
  import opened Questionnaire
  import opened SheetColumns
  import Submission

  const DefaultSchool: string := "BCS Saints"

  /** The record the sync works from (`SheetSyncData`). */
  datatype SheetSyncData = SheetSyncData(
    studentName: Option<string>,
    studentEmail: Option<string>,
    gradeLevel: Option<string>,
    school: Option<string>,
    completedAt: string,
    responses: Responses,
    scores: SkillScores,
    strengths: seq<string>,
    weaknesses: seq<string>,
    overallScore: int)

  // ---------------------------------------------------------------------------
  // Overall score
  // ---------------------------------------------------------------------------

  /** `Math.round(sum of the record's values / number of values)` on a
      complete score record. */
  function OverallScore(scores: CategoryScores): int
    requires Complete(scores)
  {
    RoundedMean(SumScores(scores, AllSkills), SkillCount)
  }

  /** The sum of scores that all lie in lo..hi is between |skills|*lo and |skills|*hi. */
  lemma {:induction false} SumScoresBounds(scores: CategoryScores, skills: seq<Skill>, lo: int, hi: int)
    requires Complete(scores)
    requires forall s: Skill :: lo <= scores[s] <= hi
    ensures |skills| * lo <= SumScores(scores, skills) <= |skills| * hi
  {
    if skills != [] {
      var init := skills[..|skills| - 1];
      SumScoresBounds(scores, init, lo, hi);
      assert |skills| * lo == |init| * lo + lo;
      assert |skills| * hi == |init| * hi + hi;
    }
  }

  /** The overall score is the integer nearest the mean category score
      (halves rounded up), and with every score in 3..21 it lies in 3..21. */
  lemma OverallScoreSpec(scores: CategoryScores)
    requires Complete(scores)
    ensures var sum := SumScores(scores, AllSkills);
      22 * OverallScore(scores) - 11 <= 2 * sum < 22 * OverallScore(scores) + 11
    ensures (forall s: Skill :: 3 <= scores[s] <= 21) ==> 3 <= OverallScore(scores) <= 21
  {
    if forall s: Skill :: 3 <= scores[s] <= 21 {
      SumScoresBounds(scores, AllSkills, 3, 21);
      RoundedMeanBounds(SumScores(scores, AllSkills), SkillCount, 3, 21);
    }
  }

  /** For scores computed from answers, the overall score is the rounded
      mean of all 33 answers taken eleven at a time: round(total / 11). */
  lemma OverallScoreOfAnswers(r: Responses)
    ensures OverallScore(CalculateCategoryScores(r)) == RoundedMean(SumAnswers(r, QuestionCount), SkillCount)
  {
    ScoreTotal(r);
  }

  // ---------------------------------------------------------------------------
  // convertToSheetFormat
  // ---------------------------------------------------------------------------

  /** Builds the sync record from the submission: the school defaults to
      "BCS Saints", e-mail and grade are passed on as given, and each
      snake_case score is copied to its camelCase field. */
  function ConvertToSheetFormat(info: Submission.StudentInfo, responses: Responses, scores: CategoryScores,
                                strengths: seq<string>, weaknesses: seq<string>, completedAt: string): SheetSyncData
    requires Complete(scores)
  {
    SheetSyncData(
      info.name, info.email, info.gradeLevel, Some(StrOr(info.school, DefaultSchool)),
      completedAt, responses, CopyScores(scores), strengths, weaknesses, OverallScore(scores))
  }

  /** What the sync record holds: the given school when non-empty and
      "BCS Saints" otherwise, every score unchanged under its camelCase
      field, and the rounded mean as overall score. */
  lemma ConvertToSheetFormatSpec(info: Submission.StudentInfo, responses: Responses, scores: CategoryScores,
                                 strengths: seq<string>, weaknesses: seq<string>, completedAt: string)
    requires Complete(scores)
    ensures var d := ConvertToSheetFormat(info, responses, scores, strengths, weaknesses, completedAt);
      Truthy(d.school) &&
      (Truthy(info.school) ==> d.school == info.school) &&
      (!Truthy(info.school) ==> d.school == Some(DefaultSchool)) &&
      d.studentEmail == info.email && d.gradeLevel == info.gradeLevel &&
      (forall s: Skill :: ScoreField(d.scores, s) == scores[s]) &&
      d.overallScore == OverallScore(scores)
  {
    forall s: Skill ensures ScoreField(CopyScores(scores), s) == scores[s] {
      CopyScoresExact(scores, s);
    }
  }

  // ---------------------------------------------------------------------------
  // formatRowData and the header list
  // ---------------------------------------------------------------------------

  /** The row appended for a record; the date text is the locale rendering
      of `completedAt`, made outside the model. */
  function FormatRowData(data: SheetSyncData, formattedDate: string): seq<Cell> {
    [ Text(formattedDate),
      OptText(data.studentName),
      Text(StrOr(data.studentEmail, "")),
      Text(StrOr(data.gradeLevel, "")),
      Text(StrOr(data.school, DefaultSchool)) ]
    + seq(QuestionCount, i => Num(Answer(data.responses, i + 1)))
    + [ Num(data.scores.responseInhibition),
        Num(data.scores.workingMemory),
        Num(data.scores.emotionalControl),
        Num(data.scores.flexibility),
        Num(data.scores.sustainedAttention),
        Num(data.scores.taskInitiation),
        Num(data.scores.planningPrioritizing),
        Num(data.scores.organization),
        Num(data.scores.timeManagement),
        Num(data.scores.goalDirectedPersistence),
        Num(data.scores.metacognition) ]
    + [ Num(data.overallScore),
        Text(Join(data.strengths, ", ")),
        Text(Join(data.weaknesses, ", ")),
        Num(|data.strengths|),
        Num(|data.weaknesses|) ]
  }

  /** What belongs in each column of a synced row. */
  function SyncCell(data: SheetSyncData, c: Column, formattedDate: string): Cell
    requires ValidColumn(c)
  {
    match c
    case When => Text(formattedDate)
    case StudentName => OptText(data.studentName)
    case StudentEmail => Text(StrOr(data.studentEmail, ""))
    case GradeLevel => Text(StrOr(data.gradeLevel, ""))
    case School => Text(StrOr(data.school, DefaultSchool))
    case Response(k) => Num(Answer(data.responses, k))
    case SkillScore(s) => Num(ScoreField(data.scores, s))
    case Overall => Num(data.overallScore)
    case Strengths => Text(Join(data.strengths, ", "))
    case Weaknesses => Text(Join(data.weaknesses, ", "))
    case StrengthCount => Num(|data.strengths|)
    case WeaknessCount => Num(|data.weaknesses|)
  }

  /** The row has 54 cells and each holds what its column calls for: the
      answer to question k in the column of Qk, each skill's score in that
      skill's column, the ", "-joined lists and their lengths at the end. */
  lemma FormatRowDataLayout(data: SheetSyncData, formattedDate: string)
    ensures |FormatRowData(data, formattedDate)| == RowWidth
    ensures forall i :: 0 <= i < RowWidth ==>
      ValidColumn(Layout[i]) && FormatRowData(data, formattedDate)[i] == SyncCell(data, Layout[i], formattedDate)
  {
    var row := FormatRowData(data, formattedDate);
    forall i | 0 <= i < RowWidth
      ensures ValidColumn(Layout[i]) && row[i] == SyncCell(data, Layout[i], formattedDate)
    {
      LayoutIndexed(i);
      if 38 <= i < 49 {
        SkillColumnCell(data, formattedDate, i - 38);
      }
    }
  }

  lemma SkillColumnCell(data: SheetSyncData, formattedDate: string, j: nat)
    requires j < SkillCount
    ensures |Layout| == RowWidth && Layout[38 + j] == SkillScore(AllSkills[j])
    ensures FormatRowData(data, formattedDate)[38 + j] == Num(ScoreField(data.scores, AllSkills[j]))
  {
  }

  /** The header row of the sync, as listed in the source. */
  const ServiceHeaders: seq<string> :=
    ["Date Completed", "Student Name", "Student Email", "Grade Level", "School"]
    + seq(QuestionCount, i requires 0 <= i => "Q" + DecimalString(i + 1))
    + ["Response Inhibition", "Working Memory", "Emotional Control", "Flexibility",
       "Sustained Attention", "Task Initiation", "Planning/Prioritizing", "Organization",
       "Time Management", "Goal-Directed Persistence", "Metacognition"]
    + ["Overall Score", "Strengths", "Weaknesses", "Strength Count", "Weakness Count"]

  /** The header list has 54 entries and entry i names column i of the row:
      entry 5+k is "Qk", the score columns carry the skill labels. */
  lemma ServiceHeadersLayout()
    ensures |ServiceHeaders| == RowWidth
    ensures forall i :: 0 <= i < RowWidth ==> ValidColumn(Layout[i]) && ServiceHeaders[i] == HeaderText(Layout[i])
  {
    forall i | 0 <= i < RowWidth
      ensures ValidColumn(Layout[i]) && ServiceHeaders[i] == HeaderText(Layout[i])
    {
      LayoutIndexed(i);
      if 38 <= i < 49 {
        SkillHeader(i - 38);
      }
    }
  }

  lemma SkillHeader(j: nat)
    requires j < SkillCount
    ensures |Layout| == RowWidth && |ServiceHeaders| == RowWidth
    ensures Layout[38 + j] == SkillScore(AllSkills[j]) && ServiceHeaders[38 + j] == Label(AllSkills[j])
  {
  }

  // ---------------------------------------------------------------------------
  // ensureHeaders
  // ---------------------------------------------------------------------------

  /** What reading row 1 gave: the request failed, or the response's
      `values`, which the API omits for an empty range. */
  datatype RowRead = ReadFailed | ReadValues(values: Option<seq<seq<Cell>>>)

  /** The header row is written when the read failed or found no values. */
  function ShouldWriteHeaders(read: RowRead): bool {
    match read
    case ReadFailed => true
    case ReadValues(values) => values.None? || |values.value| == 0 || |values.value[0]| == 0
  }

  /** Reading row 1 of a sheet held as rows of cells. */
  function ReadFirstRow(rows: seq<seq<Cell>>, fails: bool): RowRead {
    if fails then ReadFailed
    else if rows == [] || rows[0] == [] then ReadValues(None)
    else ReadValues(Some([rows[0]]))
  }

  function HeaderCells(): seq<Cell> {
    seq(|ServiceHeaders|, i requires 0 <= i < |ServiceHeaders| => Text(ServiceHeaders[i]))
  }

  /** The sheet after `ensureHeaders`: row 1 replaced by the header row when
      the decision says so, untouched otherwise. */
  function EnsureHeaders(rows: seq<seq<Cell>>, readFails: bool): seq<seq<Cell>> {
    if !ShouldWriteHeaders(ReadFirstRow(rows, readFails)) then rows
    else if rows == [] then [HeaderCells()]
    else [HeaderCells()] + rows[1..]
  }

  /** Headers are written exactly when the read fails or row 1 is empty;
      afterwards row 1 is never empty, an existing non-empty row 1 survives a
      successful read untouched (even if it is not the header row), and the
      other rows never change. */
  lemma EnsureHeadersSpec(rows: seq<seq<Cell>>, readFails: bool)
    ensures ShouldWriteHeaders(ReadFirstRow(rows, readFails)) <==> readFails || rows == [] || rows[0] == []
    ensures var after := EnsureHeaders(rows, readFails);
      after != [] && after[0] != [] &&
      (ShouldWriteHeaders(ReadFirstRow(rows, readFails)) ==> after[0] == HeaderCells()) &&
      (!readFails && rows != [] && rows[0] != [] ==> after == rows) &&
      |after| == (if rows == [] then 1 else |rows|) &&
      after[1..] == (if rows == [] then [] else rows[1..])
  {
    assert |HeaderCells()| == RowWidth by {
      ServiceHeadersLayout();
    }
  }

  // ---------------------------------------------------------------------------
  // Configuration
  // ---------------------------------------------------------------------------

  datatype SyncConfig = SyncConfig(spreadsheetId: string, apiKey: string)

  /** A sync is configured only when both the API key and the spreadsheet
      id are set. */
  function InitializeGoogleSheetsSync(apiKey: Option<string>, sheetsId: Option<string>): (r: Option<SyncConfig>)
    ensures r.None? <==> !Truthy(apiKey) || !Truthy(sheetsId)
    ensures r.Some? ==> r.value == SyncConfig(sheetsId.value, apiKey.value)
  {
    if !Truthy(apiKey) || !Truthy(sheetsId) then None
    else Some(SyncConfig(sheetsId.value, apiKey.value))
  }

  const UrlPrefix: string := "https://docs.google.com/spreadsheets/d/"
  const UrlSuffix: string := "/edit"

  /** The sharing link of the configured spreadsheet. */
  function GetSpreadsheetUrl(config: SyncConfig): string {
    UrlPrefix + config.spreadsheetId + UrlSuffix
  }

  /** The spreadsheet id can be read back from the link, so different
      spreadsheets get different links. */
  lemma SpreadsheetUrlRoundTrip(config: SyncConfig)
    ensures var url := GetSpreadsheetUrl(config);
      |url| == |UrlPrefix| + |config.spreadsheetId| + |UrlSuffix| &&
      url[..|UrlPrefix|] == UrlPrefix &&
      url[|url| - |UrlSuffix|..] == UrlSuffix &&
      url[|UrlPrefix|..|url| - |UrlSuffix|] == config.spreadsheetId
  {
  }
}
