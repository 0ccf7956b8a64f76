/** The webhook route to the spreadsheet: the flat record posted to the
    Apps Script web app, the JSON object it becomes, and the send and
    configuration logic around it. */
module SheetsWebhook {
  import opened JsValues
  import opened Questionnaire
  import opened SheetColumns
  import Submission
  import SheetsService
  import Analysis

  /** The posted record (`SheetWebhookData`); `answers[k-1]` is field qk. */
  datatype SheetWebhookData = SheetWebhookData(
    timestamp: string,
    studentName: Option<string>,
    studentEmail: string,
    gradeLevel: string,
    school: string,
    answers: seq<int>,
    scores: SkillScores,
    overallScore: int,
    strengths: string,
    weaknesses: string,
    strengthCount: int,
    weaknessCount: int)

  /** Builds the posted record; the timestamp text is the New York local
      rendering of the completion time, made outside the model. */
  function ConvertToWebhookFormat(info: Submission.StudentInfo, responses: Responses, scores: CategoryScores,
                                  strengths: seq<string>, weaknesses: seq<string>, formattedDate: string)
    : SheetWebhookData
    requires Complete(scores)
  {
    SheetWebhookData(
      formattedDate,
      info.name,
      StrOr(info.email, ""),
      StrOr(info.gradeLevel, ""),
      StrOr(info.school, SheetsService.DefaultSchool),
      Submission.StoredResponses(responses),
      CopyScores(scores),
      SheetsService.OverallScore(scores),
      Join(strengths, ", "),
      Join(weaknesses, ", "),
      |strengths|,
      |weaknesses|)
  }

  /** Field qk is the answer to question k (0 when missing), e-mail and
      grade default to "" and school to "BCS Saints", scores are copied
      unchanged, the overall score is the rounded mean, the lists are
      ", "-joined and the counts are their lengths. */
  lemma ConvertToWebhookFormatSpec(info: Submission.StudentInfo, responses: Responses, scores: CategoryScores,
                                   strengths: seq<string>, weaknesses: seq<string>, formattedDate: string)
    requires Complete(scores)
    ensures var d := ConvertToWebhookFormat(info, responses, scores, strengths, weaknesses, formattedDate);
      |d.answers| == QuestionCount &&
      (forall k :: 1 <= k <= QuestionCount ==> d.answers[k - 1] == Answer(responses, k)) &&
      (forall k :: 1 <= k <= QuestionCount && k !in responses ==> d.answers[k - 1] == 0) &&
      (Truthy(info.email) ==> d.studentEmail == info.email.value) &&
      (!Truthy(info.email) ==> d.studentEmail == "") &&
      (Truthy(info.gradeLevel) ==> d.gradeLevel == info.gradeLevel.value) &&
      (!Truthy(info.gradeLevel) ==> d.gradeLevel == "") &&
      d.school != "" &&
      (Truthy(info.school) ==> d.school == info.school.value) &&
      (!Truthy(info.school) ==> d.school == SheetsService.DefaultSchool) &&
      (forall s: Skill :: ScoreField(d.scores, s) == scores[s]) &&
      d.overallScore == SheetsService.OverallScore(scores) &&
      d.strengths == Join(strengths, ", ") && d.weaknesses == Join(weaknesses, ", ") &&
      d.strengthCount == |strengths| && d.weaknessCount == |weaknesses|
  {
    forall s: Skill ensures ScoreField(CopyScores(scores), s) == scores[s] {
      CopyScoresExact(scores, s);
    }
  }

  // ---------------------------------------------------------------------------
  // The JSON object
  // ---------------------------------------------------------------------------

  /** The value the record gives the field of column c; `None` when the
      field is undefined (and so left out of the JSON text). */
  function FieldValue(d: SheetWebhookData, c: Column): Option<Cell>
    requires ValidColumn(c)
  {
    match c
    case When => Some(Text(d.timestamp))
    case StudentName => if d.studentName.Some? then Some(Text(d.studentName.value)) else None
    case StudentEmail => Some(Text(d.studentEmail))
    case GradeLevel => Some(Text(d.gradeLevel))
    case School => Some(Text(d.school))
    case Response(k) => if k - 1 < |d.answers| then Some(Num(d.answers[k - 1])) else None
    case SkillScore(s) => Some(Num(ScoreField(d.scores, s)))
    case Overall => Some(Num(d.overallScore))
    case Strengths => Some(Text(d.strengths))
    case Weaknesses => Some(Text(d.weaknesses))
    case StrengthCount => Some(Num(d.strengthCount))
    case WeaknessCount => Some(Num(d.weaknessCount))
  }

  ghost predicate AllValid(cols: seq<Column>) {
    forall c :: c in cols ==> ValidColumn(c)
  }

  /** The object's fields for the given columns, added in order. */
  function FieldsOf(d: SheetWebhookData, cols: seq<Column>): map<string, Cell> {
    if cols == [] then map[]
    else
      var m := FieldsOf(d, cols[..|cols| - 1]);
      var last := cols[|cols| - 1];
      if ValidColumn(last) && FieldValue(d, last).Some? then m[FieldName(last) := FieldValue(d, last).value]
      else m
  }

  lemma LayoutValid()
    ensures AllValid(Layout)
    ensures forall i, j :: 0 <= i < j < |Layout| ==> Layout[i] != Layout[j]
    ensures forall c :: ValidColumn(c) ==> c in Layout
  {
    forall c | c in Layout ensures ValidColumn(c) {
      var i :| 0 <= i < |Layout| && Layout[i] == c;
      LayoutIndexed(i);
    }
    forall i, j | 0 <= i < j < |Layout| ensures Layout[i] != Layout[j] {
      LayoutIndexed(i);
      LayoutIndexed(j);
    }
    forall c | ValidColumn(c) ensures c in Layout {
      LayoutPosition(c);
    }
  }

  /** `JSON.stringify(data)` as an object: one field per column, named by
      the column's field name. */
  function Payload(d: SheetWebhookData): map<string, Cell> {
    FieldsOf(d, Layout)
  }

  lemma {:induction false} FieldsOfLookup(d: SheetWebhookData, cols: seq<Column>)
    requires AllValid(cols)
    requires forall i, j :: 0 <= i < j < |cols| ==> cols[i] != cols[j]
    ensures forall c :: c in cols ==>
      (FieldName(c) in FieldsOf(d, cols) <==> FieldValue(d, c).Some?) &&
      (FieldName(c) in FieldsOf(d, cols) ==> FieldsOf(d, cols)[FieldName(c)] == FieldValue(d, c).value)
    ensures forall name :: name in FieldsOf(d, cols) ==> exists c :: c in cols && FieldName(c) == name
  {
    if cols != [] {
      var init := cols[..|cols| - 1];
      var last := cols[|cols| - 1];
      assert cols == init + [last];
      FieldsOfLookup(d, init);
      forall c | c in init ensures FieldName(c) != FieldName(last) {
        if FieldName(c) == FieldName(last) {
          FieldNameInjective(c, last);
        }
      }
    }
  }

  /** The JSON object carries, under each column's field name, exactly the
      value the record gives that column, and no other field. */
  lemma PayloadFields(d: SheetWebhookData, c: Column)
    requires ValidColumn(c)
    ensures FieldName(c) in Payload(d) <==> FieldValue(d, c).Some?
    ensures FieldName(c) in Payload(d) ==> Payload(d)[FieldName(c)] == FieldValue(d, c).value
    ensures forall name :: name in Payload(d) ==> exists c' :: ValidColumn(c') && FieldName(c') == name
  {
    LayoutValid();
    FieldsOfLookup(d, Layout);
  }

  // ---------------------------------------------------------------------------
  // Sending and configuration
  // ---------------------------------------------------------------------------

  const NotConfiguredError: string :=
    "Google Sheets webhook not configured. Please set GOOGLE_SHEETS_WEBHOOK_URL environment variable."

  /** How the POST to the web app went: accepted, answered with a non-OK
      status and a body text, or the call threw. */
  datatype PostOutcome = PostOk | PostRejected(status: int, body: string) | PostThrew(errorMessage: Option<string>)

  datatype SyncResult = SyncResult(success: bool, error: Option<string>)

  /** Sends the record. Without a URL nothing is posted (`None`); otherwise
      the JSON object is posted to the URL and the outcome decides the result. */
  function SendToGoogleSheets(d: SheetWebhookData, webhookUrl: Option<string>, outcome: PostOutcome)
    : (r: (SyncResult, Option<(string, map<string, Cell>)>))
    ensures !Truthy(webhookUrl) <==> r.1.None?
    ensures !Truthy(webhookUrl) ==> r.0 == SyncResult(false, Some(NotConfiguredError))
    ensures Truthy(webhookUrl) ==> r.1 == Some((webhookUrl.value, Payload(d))) && (r.0.success <==> outcome.PostOk?)
    ensures r.0.success <==> r.0.error.None?
  {
    if !Truthy(webhookUrl) then (SyncResult(false, Some(NotConfiguredError)), None)
    else
      var result :=
        match outcome
        case PostOk => SyncResult(true, None)
        case PostRejected(status, body) => SyncResult(false, Some("HTTP " + IntString(status) + ": " + body))
        case PostThrew(m) =>
          SyncResult(false, Some("Google Sheets webhook error: " + (if m.Some? then m.value else "Unknown error")));
      (result, Some((webhookUrl.value, Payload(d))))
  }

  /** The configured webhook URL, when set. */
  function InitializeGoogleSheetsWebhook(webhookUrl: Option<string>): (r: Option<string>)
    ensures r.None? <==> !Truthy(webhookUrl)
    ensures r.Some? ==> r == webhookUrl
  {
    if !Truthy(webhookUrl) then None else webhookUrl
  }

  /** Configuring and sending agree: a send is attempted exactly when the
      initialisation yields a URL, and it goes to that URL. */
  lemma ConfiguredSendGoesToUrl(d: SheetWebhookData, webhookUrl: Option<string>, outcome: PostOutcome)
    ensures SendToGoogleSheets(d, webhookUrl, outcome).1.Some? <==> InitializeGoogleSheetsWebhook(webhookUrl).Some?
    ensures InitializeGoogleSheetsWebhook(webhookUrl).Some? ==>
      SendToGoogleSheets(d, webhookUrl, outcome).1.value.0 == InitializeGoogleSheetsWebhook(webhookUrl).value
  {
  }

  // ---------------------------------------------------------------------------
  // The sample record of the web app's self-test
  // ---------------------------------------------------------------------------

  /** Three texts joined with ", ". */
  lemma JoinThree(x: string, y: string, z: string)
    ensures Join([x, y, z], ", ") == x + ", " + y + ", " + z
  {
    assert [x, y, z][1..] == [y, z];
    assert [y, z][1..] == [z];
  }

  /** Three relabelled skills. */
  lemma LabelThree(x: Skill, y: Skill, z: Skill)
    ensures Submission.LabelSkills([x, y, z]) == [Label(x), Label(y), Label(z)]
  {
    Submission.LabelsAt([x, y, z]);
  }

  /** The self-test record's `strengths` and `weaknesses` texts, written as
      the three names with their ", " separators. */
  const FixtureStrengthsText: string := "Response Inhibition" + ", " + "Flexibility" + ", " + "Planning/Prioritizing"
  const FixtureWeaknessesText: string := "Emotional Control" + ", " + "Task Initiation" + ", " + "Time Management"

  lemma FixtureStrengthsJoined(xs: seq<Skill>)
    requires xs == [ResponseInhibition, Flexibility, PlanningPrioritizing]
    ensures Join(Submission.LabelSkills(xs), ", ") == FixtureStrengthsText
  {
    var x, y, z := "Response Inhibition", "Flexibility", "Planning/Prioritizing";
    LabelThree(ResponseInhibition, Flexibility, PlanningPrioritizing);
    assert Submission.LabelSkills(xs) == [x, y, z];
    JoinThree(x, y, z);
  }

  lemma FixtureWeaknessesJoined(xs: seq<Skill>)
    requires xs == [EmotionalControl, TaskInitiation, TimeManagement]
    ensures Join(Submission.LabelSkills(xs), ", ") == FixtureWeaknessesText
  {
    var x, y, z := "Emotional Control", "Task Initiation", "Time Management";
    LabelThree(EmotionalControl, TaskInitiation, TimeManagement);
    assert Submission.LabelSkills(xs) == [x, y, z];
    JoinThree(x, y, z);
  }

  /** On the sample scores (12, 13, 15 repeating), the joined strength and
      weakness labels are exactly the texts the self-test record carries. */
  lemma FixtureStrings(scores: CategoryScores)
    requires Analysis.IsFixture(scores)
    ensures Join(Submission.LabelSkills(Analysis.AnalyzeResults(scores).strengths), ", ") == FixtureStrengthsText
    ensures Join(Submission.LabelSkills(Analysis.AnalyzeResults(scores).weaknesses), ", ") == FixtureWeaknessesText
  {
    Analysis.FixtureAnalysis(scores);
    FixtureStrengthsJoined(Analysis.AnalyzeResults(scores).strengths);
    FixtureWeaknessesJoined(Analysis.AnalyzeResults(scores).weaknesses);
  }

  lemma SumScoresStep(scores: CategoryScores, n: nat)
    requires Complete(scores) && n < SkillCount
    ensures SumScores(scores, AllSkills[..n + 1]) == SumScores(scores, AllSkills[..n]) + scores[AllSkills[n]]
  {
    assert AllSkills[..n + 1][..n] == AllSkills[..n];
  }

  /** On the sample scores the overall score is 13, the value the self-test
      record carries (145 / 11 rounded). */
  lemma FixtureOverall(scores: CategoryScores)
    requires Analysis.IsFixture(scores)
    ensures SheetsService.OverallScore(scores) == 13
  {
    assert AllSkills[..0] == [];
    SumScoresStep(scores, 0);
    assert SumScores(scores, AllSkills[..1]) == 12;
    SumScoresStep(scores, 1);
    assert SumScores(scores, AllSkills[..2]) == 25;
    SumScoresStep(scores, 2);
    assert SumScores(scores, AllSkills[..3]) == 40;
    SumScoresStep(scores, 3);
    assert SumScores(scores, AllSkills[..4]) == 52;
    SumScoresStep(scores, 4);
    assert SumScores(scores, AllSkills[..5]) == 65;
    SumScoresStep(scores, 5);
    assert SumScores(scores, AllSkills[..6]) == 80;
    SumScoresStep(scores, 6);
    assert SumScores(scores, AllSkills[..7]) == 92;
    SumScoresStep(scores, 7);
    assert SumScores(scores, AllSkills[..8]) == 105;
    SumScoresStep(scores, 8);
    assert SumScores(scores, AllSkills[..9]) == 120;
    SumScoresStep(scores, 9);
    assert SumScores(scores, AllSkills[..10]) == 132;
    SumScoresStep(scores, 10);
    assert SumScores(scores, AllSkills[..11]) == 145;
    assert AllSkills[..11] == AllSkills;
  }
}
