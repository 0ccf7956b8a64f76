/** The Apps Script web app that receives the webhook's JSON object and
    appends it to the "Assessment Results" sheet: its header row, its
    flattening of the object into a row, and `doPost`, which creates or
    repairs the sheet and appends one row. */
module AppsScript {
  import opened JsValues
  import opened Questionnaire
  import opened SheetColumns
  import SheetsService
  import SheetsWebhook
  import Submission

  /** The web app's header list, in its four groups; it differs from the
      sync's only in A1. */
  const InfoHeaders: seq<string> := ["Timestamp", "Student Name", "Student Email", "Grade Level", "School"]
  const QuestionHeaderTexts: seq<string> :=
    ["Q1", "Q2", "Q3", "Q4", "Q5", "Q6", "Q7", "Q8", "Q9", "Q10",
     "Q11", "Q12", "Q13", "Q14", "Q15", "Q16", "Q17", "Q18", "Q19", "Q20",
     "Q21", "Q22", "Q23", "Q24", "Q25", "Q26", "Q27", "Q28", "Q29", "Q30",
     "Q31", "Q32", "Q33"]
  const CategoryHeaders: seq<string> :=
    ["Response Inhibition", "Working Memory", "Emotional Control", "Flexibility",
     "Sustained Attention", "Task Initiation", "Planning/Prioritizing", "Organization",
     "Time Management", "Goal-Directed Persistence", "Metacognition"]
  const AnalysisHeaders: seq<string> := ["Overall Score", "Strengths", "Weaknesses", "Strength Count", "Weakness Count"]
  const ScriptHeaders: seq<string> := InfoHeaders + QuestionHeaderTexts + CategoryHeaders + AnalysisHeaders

  /** The header list as the cells `setValues` writes. */
  function HeaderRow(): (h: seq<Cell>)
    ensures |h| == |ScriptHeaders|
    ensures forall i :: 0 <= i < |h| ==> h[i] == Text(ScriptHeaders[i])
  {
    seq(|ScriptHeaders|, i requires 0 <= i < |ScriptHeaders| => Text(ScriptHeaders[i]))
  }

  lemma QuestionHeaderTextsSpell1()
    ensures |QuestionHeaderTexts| == QuestionCount
    ensures forall k :: 1 <= k <= 11 ==> QuestionHeaderTexts[k - 1] == "Q" + DecimalString(k)
  {
    assert QuestionHeaderTexts[0] == "Q" + DecimalString(1);
    assert QuestionHeaderTexts[1] == "Q" + DecimalString(2);
    assert QuestionHeaderTexts[2] == "Q" + DecimalString(3);
    assert QuestionHeaderTexts[3] == "Q" + DecimalString(4);
    assert QuestionHeaderTexts[4] == "Q" + DecimalString(5);
    assert QuestionHeaderTexts[5] == "Q" + DecimalString(6);
    assert QuestionHeaderTexts[6] == "Q" + DecimalString(7);
    assert QuestionHeaderTexts[7] == "Q" + DecimalString(8);
    assert QuestionHeaderTexts[8] == "Q" + DecimalString(9);
    assert QuestionHeaderTexts[9] == "Q" + DecimalString(10);
    assert QuestionHeaderTexts[10] == "Q" + DecimalString(11);
  }

  lemma QuestionHeaderTextsSpell2()
    ensures |QuestionHeaderTexts| == QuestionCount
    ensures forall k :: 12 <= k <= 22 ==> QuestionHeaderTexts[k - 1] == "Q" + DecimalString(k)
  {
    assert QuestionHeaderTexts[11] == "Q" + DecimalString(12);
    assert QuestionHeaderTexts[12] == "Q" + DecimalString(13);
    assert QuestionHeaderTexts[13] == "Q" + DecimalString(14);
    assert QuestionHeaderTexts[14] == "Q" + DecimalString(15);
    assert QuestionHeaderTexts[15] == "Q" + DecimalString(16);
    assert QuestionHeaderTexts[16] == "Q" + DecimalString(17);
    assert QuestionHeaderTexts[17] == "Q" + DecimalString(18);
    assert QuestionHeaderTexts[18] == "Q" + DecimalString(19);
    assert QuestionHeaderTexts[19] == "Q" + DecimalString(20);
    assert QuestionHeaderTexts[20] == "Q" + DecimalString(21);
    assert QuestionHeaderTexts[21] == "Q" + DecimalString(22);
  }

  lemma QuestionHeaderTextsSpell3()
    ensures |QuestionHeaderTexts| == QuestionCount
    ensures forall k :: 23 <= k <= 33 ==> QuestionHeaderTexts[k - 1] == "Q" + DecimalString(k)
  {
    assert QuestionHeaderTexts[22] == "Q" + DecimalString(23);
    assert QuestionHeaderTexts[23] == "Q" + DecimalString(24);
    assert QuestionHeaderTexts[24] == "Q" + DecimalString(25);
    assert QuestionHeaderTexts[25] == "Q" + DecimalString(26);
    assert QuestionHeaderTexts[26] == "Q" + DecimalString(27);
    assert QuestionHeaderTexts[27] == "Q" + DecimalString(28);
    assert QuestionHeaderTexts[28] == "Q" + DecimalString(29);
    assert QuestionHeaderTexts[29] == "Q" + DecimalString(30);
    assert QuestionHeaderTexts[30] == "Q" + DecimalString(31);
    assert QuestionHeaderTexts[31] == "Q" + DecimalString(32);
    assert QuestionHeaderTexts[32] == "Q" + DecimalString(33);
  }

  /** Header 5+k (zero-based 4+k) is "Qk", the header of question k's column. */
  lemma QuestionHeaders()
    ensures |ScriptHeaders| == RowWidth
    ensures forall k :: 1 <= k <= QuestionCount ==> ScriptHeaders[4 + k] == "Q" + DecimalString(k)
  {
    QuestionHeaderTextsSpell1();
    QuestionHeaderTextsSpell2();
    QuestionHeaderTextsSpell3();
    forall k | 1 <= k <= QuestionCount ensures ScriptHeaders[4 + k] == "Q" + DecimalString(k) {
      assert ScriptHeaders[4 + k] == QuestionHeaderTexts[k - 1];
    }
  }

  /** The web app's headers name the same columns as the sync's, entry by
      entry, except that the first column is headed "Timestamp" rather
      than "Date Completed". */
  lemma ScriptHeadersLayout()
    ensures |ScriptHeaders| == RowWidth && ScriptHeaders[0] == "Timestamp"
    ensures forall i :: 1 <= i < RowWidth ==> ValidColumn(Layout[i]) && ScriptHeaders[i] == HeaderText(Layout[i])
    ensures ScriptHeaders[1..] == SheetsService.ServiceHeaders[1..]
    ensures SheetsService.ServiceHeaders[0] == "Date Completed"
  {
    QuestionHeaders();
    SheetsService.ServiceHeadersLayout();
    forall i | 1 <= i < RowWidth
      ensures ValidColumn(Layout[i]) && ScriptHeaders[i] == HeaderText(Layout[i])
    {
      LayoutIndexed(i);
      if 38 <= i < 49 {
        SheetsService.SkillHeader(i - 38);
      }
    }
    LayoutIndexed(0);
    forall i | 0 <= i < RowWidth - 1 ensures ScriptHeaders[1..][i] == SheetsService.ServiceHeaders[1..][i] {
      assert ScriptHeaders[1..][i] == ScriptHeaders[i + 1];
    }
  }

  // ---------------------------------------------------------------------------
  // formatDataForSheet
  // ---------------------------------------------------------------------------

  /** The value `formatDataForSheet` puts in a column whose field is falsy:
      the current time for the timestamp, "BCS Saints" for the school, ""
      for the other texts and 0 for the numbers. */
  function ScriptDefault(c: Column, now: string): Cell
    requires ValidColumn(c)
  {
    match c
    case When => Text(now)
    case School => Text(SheetsService.DefaultSchool)
    case StudentName => Text("")
    case StudentEmail => Text("")
    case GradeLevel => Text("")
    case Strengths => Text("")
    case Weaknesses => Text("")
    case _ => Num(0)
  }

  /** The row for a received object; `now` is the local time text used when
      the object has no timestamp. */
  function FormatDataForSheet(data: map<string, Cell>, now: string): seq<Cell> {
    [ Or(data, "timestamp", Text(now)),
      Or(data, "studentName", Text("")),
      Or(data, "studentEmail", Text("")),
      Or(data, "gradeLevel", Text("")),
      Or(data, "school", Text(SheetsService.DefaultSchool)) ]
    + seq(QuestionCount, i requires 0 <= i => Or(data, "q" + DecimalString(i + 1), Num(0)))
    + [ Or(data, "responseInhibition", Num(0)),
        Or(data, "workingMemory", Num(0)),
        Or(data, "emotionalControl", Num(0)),
        Or(data, "flexibility", Num(0)),
        Or(data, "sustainedAttention", Num(0)),
        Or(data, "taskInitiation", Num(0)),
        Or(data, "planningPrioritizing", Num(0)),
        Or(data, "organization", Num(0)),
        Or(data, "timeManagement", Num(0)),
        Or(data, "goalDirectedPersistence", Num(0)),
        Or(data, "metacognition", Num(0)) ]
    + [ Or(data, "overallScore", Num(0)),
        Or(data, "strengths", Text("")),
        Or(data, "weaknesses", Text("")),
        Or(data, "strengthCount", Num(0)),
        Or(data, "weaknessCount", Num(0)) ]
  }

  lemma SkillFieldCell(data: map<string, Cell>, now: string, j: nat)
    requires j < SkillCount
    ensures |Layout| == RowWidth && Layout[38 + j] == SkillScore(AllSkills[j])
    ensures FormatDataForSheet(data, now)[38 + j] == Or(data, CamelKey(AllSkills[j]), Num(0))
  {
  }

  /** The row has 54 cells, and the cell of each column is the object's
      field for that column when truthy and the column's default otherwise;
      with the header lemma this puts every value under its own header. */
  lemma FormatDataForSheetLayout(data: map<string, Cell>, now: string)
    ensures |FormatDataForSheet(data, now)| == RowWidth
    ensures forall i :: 0 <= i < RowWidth ==>
      ValidColumn(Layout[i]) &&
      FormatDataForSheet(data, now)[i] == Or(data, FieldName(Layout[i]), ScriptDefault(Layout[i], now))
  {
    var row := FormatDataForSheet(data, now);
    forall i | 0 <= i < RowWidth
      ensures ValidColumn(Layout[i]) && row[i] == Or(data, FieldName(Layout[i]), ScriptDefault(Layout[i], now))
    {
      LayoutIndexed(i);
      if 38 <= i < 49 {
        SkillFieldCell(data, now, i - 38);
      }
    }
  }

  /** A missing or falsy field leaves its column's default in the row. */
  lemma MissingFieldsDefault(data: map<string, Cell>, now: string, c: Column)
    requires ValidColumn(c)
    requires FieldName(c) !in data || !CellTruthy(data[FieldName(c)])
    ensures |FormatDataForSheet(data, now)| == RowWidth
    ensures FormatDataForSheet(data, now)[ColumnIndex(c)] == ScriptDefault(c, now)
  {
    FormatDataForSheetLayout(data, now);
    LayoutPosition(c);
  }

  // ---------------------------------------------------------------------------
  // The two routes agree
  // ---------------------------------------------------------------------------

  lemma RouteCell(info: Submission.StudentInfo, responses: Responses, scores: CategoryScores,
                  strengths: seq<string>, weaknesses: seq<string>,
                  completedAt: string, formattedDate: string, now: string, c: Column)
    requires Complete(scores)
    requires info.name.Some? && formattedDate != ""
    requires ValidColumn(c)
    ensures var d := SheetsWebhook.ConvertToWebhookFormat(info, responses, scores, strengths, weaknesses, formattedDate);
      var s := SheetsService.ConvertToSheetFormat(info, responses, scores, strengths, weaknesses, completedAt);
      Or(SheetsWebhook.Payload(d), FieldName(c), ScriptDefault(c, now)) == SheetsService.SyncCell(s, c, formattedDate)
  {
    var d := SheetsWebhook.ConvertToWebhookFormat(info, responses, scores, strengths, weaknesses, formattedDate);
    SheetsWebhook.PayloadFields(d, c);
    SheetsWebhook.ConvertToWebhookFormatSpec(info, responses, scores, strengths, weaknesses, formattedDate);
    SheetsService.ConvertToSheetFormatSpec(info, responses, scores, strengths, weaknesses, completedAt);
  }

  /** Posting a submission through the webhook and the web app appends the
      very row the direct sync appends, provided the student has a name and
      both routes render the date to the same non-empty text. */
  lemma RoutesAgree(info: Submission.StudentInfo, responses: Responses, scores: CategoryScores,
                    strengths: seq<string>, weaknesses: seq<string>,
                    completedAt: string, formattedDate: string, now: string)
    requires Complete(scores)
    requires info.name.Some? && formattedDate != ""
    ensures var d := SheetsWebhook.ConvertToWebhookFormat(info, responses, scores, strengths, weaknesses, formattedDate);
      var s := SheetsService.ConvertToSheetFormat(info, responses, scores, strengths, weaknesses, completedAt);
      FormatDataForSheet(SheetsWebhook.Payload(d), now) == SheetsService.FormatRowData(s, formattedDate)
  {
    var d := SheetsWebhook.ConvertToWebhookFormat(info, responses, scores, strengths, weaknesses, formattedDate);
    var s := SheetsService.ConvertToSheetFormat(info, responses, scores, strengths, weaknesses, completedAt);
    var viaWebhook := FormatDataForSheet(SheetsWebhook.Payload(d), now);
    var direct := SheetsService.FormatRowData(s, formattedDate);
    FormatDataForSheetLayout(SheetsWebhook.Payload(d), now);
    SheetsService.FormatRowDataLayout(s, formattedDate);
    forall i | 0 <= i < RowWidth ensures viaWebhook[i] == direct[i] {
      RouteCell(info, responses, scores, strengths, weaknesses, completedAt, formattedDate, now, Layout[i]);
    }
  }

  /** Every field of the posted record lands in the column its header
      names: the field's value is the cell (a falsy timestamp or school is
      replaced by its default), and the header above it is the column's
      header, "Timestamp" for the first. */
  lemma FieldsLandUnderHeaders(d: SheetsWebhook.SheetWebhookData, now: string, c: Column)
    requires ValidColumn(c)
    requires SheetsWebhook.FieldValue(d, c).Some?
    requires c == When || c == School ==> CellTruthy(SheetsWebhook.FieldValue(d, c).value)
    ensures var row := FormatDataForSheet(SheetsWebhook.Payload(d), now);
      |row| == RowWidth && |ScriptHeaders| == RowWidth &&
      row[ColumnIndex(c)] == SheetsWebhook.FieldValue(d, c).value &&
      ScriptHeaders[ColumnIndex(c)] == (if c == When then "Timestamp" else HeaderText(c))
  {
    SheetsWebhook.PayloadFields(d, c);
    FormatDataForSheetLayout(SheetsWebhook.Payload(d), now);
    ScriptHeadersLayout();
    LayoutPosition(c);
  }

  /** Without a name the routes differ: the web app writes "" where the
      sync leaves the cell undefined. */
  lemma NamelessRoutesDiffer(info: Submission.StudentInfo, responses: Responses, scores: CategoryScores,
                             strengths: seq<string>, weaknesses: seq<string>,
                             completedAt: string, formattedDate: string, now: string)
    requires Complete(scores)
    requires info.name.None?
    ensures var d := SheetsWebhook.ConvertToWebhookFormat(info, responses, scores, strengths, weaknesses, formattedDate);
      var s := SheetsService.ConvertToSheetFormat(info, responses, scores, strengths, weaknesses, completedAt);
      FormatDataForSheet(SheetsWebhook.Payload(d), now)[1] == Text("") &&
      SheetsService.FormatRowData(s, formattedDate)[1] == Undefined
  {
    var d := SheetsWebhook.ConvertToWebhookFormat(info, responses, scores, strengths, weaknesses, formattedDate);
    SheetsWebhook.PayloadFields(d, StudentName);
  }

  // ---------------------------------------------------------------------------
  // The sheet and doPost
  // ---------------------------------------------------------------------------

  /** `getRange(1, 1).getValue()`: the empty string on an empty sheet. */
  function FirstCellOf(rows: seq<seq<Cell>>): Cell {
    if rows == [] || rows[0] == [] then Text("") else rows[0][0]
  }

  /** The sheet after `setValues` of `h` into row 1 from column A: the cells
      of row 1 beyond `h` and all later rows stay. */
  function WithHeaderRow(rows: seq<seq<Cell>>, h: seq<Cell>): seq<seq<Cell>> {
    var row1 := if rows == [] then [] else rows[0];
    [h + (if |row1| > |h| then row1[|h|..] else [])] + (if rows == [] then [] else rows[1..])
  }

  /** Writing row 1 puts `h` at its start, keeps the rest of row 1 and every
      other row, and creates row 1 on an empty sheet. */
  lemma WithHeaderRowSpec(rows: seq<seq<Cell>>, h: seq<Cell>)
    ensures var after := WithHeaderRow(rows, h);
      |after| == (if rows == [] then 1 else |rows|) &&
      |after[0]| >= |h| && after[0][..|h|] == h &&
      (rows != [] ==> |after[0]| == (if |rows[0]| > |h| then |rows[0]| else |h|) &&
                      forall j :: |h| <= j < |rows[0]| ==> after[0][j] == rows[0][j]) &&
      forall i :: 1 <= i < |rows| ==> after[i] == rows[i]
  {
  }

  /** The header check of `doPost`: row 1 is (re)written unless A1 already
      says "Timestamp". */
  predicate NeedsHeaders(rows: seq<seq<Cell>>) {
    var firstCell := FirstCellOf(rows);
    !CellTruthy(firstCell) || firstCell != Text("Timestamp")
  }

  function RepairHeaders(rows: seq<seq<Cell>>): seq<seq<Cell>> {
    if NeedsHeaders(rows) then WithHeaderRow(rows, HeaderRow()) else rows
  }

  /** After the check A1 says "Timestamp"; a second check changes nothing;
      a sheet that already had it is left alone; only row 1 can change. */
  lemma RepairHeadersSpec(rows: seq<seq<Cell>>)
    ensures NeedsHeaders(rows) <==> FirstCellOf(rows) != Text("Timestamp")
    ensures FirstCellOf(RepairHeaders(rows)) == Text("Timestamp")
    ensures RepairHeaders(RepairHeaders(rows)) == RepairHeaders(rows)
    ensures !NeedsHeaders(rows) ==> RepairHeaders(rows) == rows
    ensures NeedsHeaders(rows) ==> RepairHeaders(rows)[0][..RowWidth] == HeaderRow()
    ensures |RepairHeaders(rows)| == (if rows == [] then 1 else |rows|)
    ensures forall i :: 1 <= i < |rows| ==> RepairHeaders(rows)[i] == rows[i]
  {
    WithHeaderRowSpec(rows, HeaderRow());
    QuestionHeaders();
  }

  /** A sheet set up by the direct sync (A1 "Date Completed") fails the web
      app's check, so its header row is rewritten with the web app's list. */
  lemma SyncHeadedSheetRewritten(rest: seq<seq<Cell>>)
    ensures NeedsHeaders([SheetsService.HeaderCells()] + rest)
    ensures RepairHeaders([SheetsService.HeaderCells()] + rest) == [HeaderRow()] + rest
  {
    SheetsService.ServiceHeadersLayout();
    ScriptHeadersLayout();
    var rows := [SheetsService.HeaderCells()] + rest;
    assert rows[0][0] == Text("Date Completed");
    assert |rows[0]| == |HeaderRow()|;
    assert rows[1..] == rest;
    assert HeaderRow() + [] == HeaderRow();
  }

  /** The sheet after a successful `doPost`: header check, then the row for
      the object appended at the end. */
  function PostedRows(rows: seq<seq<Cell>>, data: map<string, Cell>, now: string): seq<seq<Cell>> {
    RepairHeaders(rows) + [FormatDataForSheet(data, now)]
  }

  /** One row is added, at the end, and it is the object's row; rows below
      the header row are kept; A1 says "Timestamp" afterwards. */
  lemma PostedRowsSpec(rows: seq<seq<Cell>>, data: map<string, Cell>, now: string)
    ensures var after := PostedRows(rows, data, now);
      |after| == (if rows == [] then 2 else |rows| + 1) &&
      after[|after| - 1] == FormatDataForSheet(data, now) &&
      (forall i :: 1 <= i < |rows| ==> after[i] == rows[i]) &&
      FirstCellOf(after) == Text("Timestamp")
  {
    RepairHeadersSpec(rows);
  }

  /** The text `${data.studentName}` renders. */
  function Rendered(data: map<string, Cell>, name: string): string {
    if name !in data then "undefined"
    else match data[name]
      case Text(t) => t
      case Num(n) => IntString(n)
      case Undefined => "undefined"
  }

  const SavedPrefix: string := "Assessment data saved for "

  /** The response of `doPost`: saved with a message, or failed because the
      body was not JSON. */
  datatype PostResult = Saved(message: string) | Failed

  function SavedMessage(data: map<string, Cell>): (m: string)
    ensures |m| >= |SavedPrefix| && m[..|SavedPrefix|] == SavedPrefix
    ensures "studentName" in data && data["studentName"].Text? ==> m[|SavedPrefix|..] == data["studentName"].text
  {
    SavedPrefix + Rendered(data, "studentName")
  }

  /** A sheet held as its rows of cells. */
  class Sheet {
    var rows: seq<seq<Cell>>

    constructor ()
      ensures rows == []
    {
      rows := [];
    }

    function FirstCell(): Cell
      reads this
    {
      FirstCellOf(rows)
    }

    /** `setupHeaders`: the header list into row 1; the formatting it also
        applies is not modelled. */
    method SetupHeaders()
      modifies this
      ensures rows == WithHeaderRow(old(rows), HeaderRow())
    {
      var h := HeaderRow();
      var row1 := if rows == [] then [] else rows[0];
      var rest := if rows == [] then [] else rows[1..];
      rows := [h + (if |row1| > |h| then row1[|h|..] else [])] + rest;
    }

    method AppendRow(row: seq<Cell>)
      modifies this
      ensures rows == old(rows) + [row]
    {
      rows := rows + [row];
    }
  }

  /** The spreadsheet, through its sheet named "Assessment Results" (null
      when there is none yet). */
  class Spreadsheet {
    var results: Sheet?

    constructor (existing: Sheet?)
      ensures results == existing
    {
      results := existing;
    }

    /** `doPost`: parse the body (`None` when it is not JSON), create the
        sheet with its headers if missing, rewrite the headers if A1 is not
        "Timestamp", append the object's row. */
    method DoPost(payload: Option<map<string, Cell>>, now: string) returns (r: PostResult)
      modifies this, results
      ensures payload.None? ==> r == Failed && results == old(results)
      ensures payload.None? && old(results) != null ==> results.rows == old(results.rows)
      ensures payload.Some? ==> results != null && r == Saved(SavedMessage(payload.value))
      ensures payload.Some? && old(results) == null ==>
        fresh(results) && results.rows == PostedRows([], payload.value, now)
      ensures payload.Some? && old(results) != null ==>
        results == old(results) && results.rows == PostedRows(old(results.rows), payload.value, now)
    {
      if payload.None? {
        return Failed;
      }
      var data := payload.value;
      var sheet := results;
      if sheet == null {
        sheet := new Sheet();
        sheet.SetupHeaders();
        results := sheet;
      }
      var firstCell := sheet.FirstCell();
      if !CellTruthy(firstCell) || firstCell != Text("Timestamp") {
        sheet.SetupHeaders();
      }
      sheet.AppendRow(FormatDataForSheet(data, now));
      r := Saved(SavedMessage(data));
    }
  }
}
