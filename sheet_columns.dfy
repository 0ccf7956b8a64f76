/** The 54-column layout shared by every spreadsheet row of an assessment:
    five information columns, the 33 answers, the 11 skill scores and five
    analysis columns. Each column has a header text and, in the webhook's
    JSON object, a field name; both are read off the same column, which is
    what lines cells up with their headers. */
module SheetColumns {
  import opened JsValues
  import opened Questionnaire

  /** A spreadsheet cell, or a JSON scalar as the sheet code meets it;
      `Undefined` is an undefined value. */
  datatype Cell = Text(text: string) | Num(n: int) | Undefined

  /** JavaScript truthiness of a cell value. */
  predicate CellTruthy(c: Cell) {
    (c.Text? && c.text != "") || (c.Num? && c.n != 0)
  }

  /** `data.name || d` on a JSON object. */
  function Or(data: map<string, Cell>, name: string, d: Cell): (c: Cell)
    ensures c == d || (name in data && c == data[name] && CellTruthy(c))
  {
    if name in data && CellTruthy(data[name]) then data[name] else d
  }

  /** A cell holding an optional string, undefined when absent. */
  function OptText(o: Option<string>): Cell {
    if o.Some? then Text(o.value) else Undefined
  }

  datatype Column =
    | When | StudentName | StudentEmail | GradeLevel | School
    | Response(id: int)
    | SkillScore(skill: Skill)
    | Overall | Strengths | Weaknesses | StrengthCount | WeaknessCount

  /** Answer columns exist for the question ids 1..33 only. */
  predicate ValidColumn(c: Column) {
    c.Response? ==> 1 <= c.id <= QuestionCount
  }

  const RowWidth: nat := 54

  /** The answer columns for questions 1..n, in order. */
  function ResponseColumns(n: nat): (cols: seq<Column>)
    ensures |cols| == n
    ensures forall i :: 0 <= i < n ==> cols[i] == Response(i + 1)
  {
    if n == 0 then [] else ResponseColumns(n - 1) + [Response(n)]
  }

  /** The columns in sheet order. */
  const Layout: seq<Column> :=
    [When, StudentName, StudentEmail, GradeLevel, School]
    + ResponseColumns(QuestionCount)
    + [SkillScore(ResponseInhibition), SkillScore(WorkingMemory), SkillScore(EmotionalControl),
       SkillScore(Flexibility), SkillScore(SustainedAttention), SkillScore(TaskInitiation),
       SkillScore(PlanningPrioritizing), SkillScore(Organization), SkillScore(TimeManagement),
       SkillScore(GoalDirectedPersistence), SkillScore(Metacognition)]
    + [Overall, Strengths, Weaknesses, StrengthCount, WeaknessCount]

  /** The zero-based position of a column. */
  function ColumnIndex(c: Column): (i: nat)
    requires ValidColumn(c)
    ensures i < RowWidth
  {
    match c
    case When => 0
    case StudentName => 1
    case StudentEmail => 2
    case GradeLevel => 3
    case School => 4
    case Response(k) => 4 + k
    case SkillScore(s) => 38 + SkillIndex(s)
    case Overall => 49
    case Strengths => 50
    case Weaknesses => 51
    case StrengthCount => 52
    case WeaknessCount => 53
  }

  /** A column sits at its index. */
  lemma LayoutPosition(c: Column)
    requires ValidColumn(c)
    ensures |Layout| == RowWidth && Layout[ColumnIndex(c)] == c
  {
    if c.SkillScore? {
      assert Layout[38 + SkillIndex(c.skill)] == SkillScore(AllSkills[SkillIndex(c.skill)]);
    }
  }

  /** Every position holds a valid column, and that column's index is the
      position: each column occurs exactly once. */
  lemma LayoutIndexed(i: nat)
    requires i < RowWidth
    ensures |Layout| == RowWidth && ValidColumn(Layout[i]) && ColumnIndex(Layout[i]) == i
  {
    if 38 <= i < 49 {
      AllSkillsIndexed(i - 38);
    }
  }

  /** The header text of a column in the server-side sheet sync. */
  function HeaderText(c: Column): string
    requires ValidColumn(c)
  {
    match c
    case When => "Date Completed"
    case StudentName => "Student Name"
    case StudentEmail => "Student Email"
    case GradeLevel => "Grade Level"
    case School => "School"
    case Response(k) => "Q" + DecimalString(k)
    case SkillScore(s) => Label(s)
    case Overall => "Overall Score"
    case Strengths => "Strengths"
    case Weaknesses => "Weaknesses"
    case StrengthCount => "Strength Count"
    case WeaknessCount => "Weakness Count"
  }

  /** The camelCase field of a skill in the sheet records. */
  function CamelKey(s: Skill): string {
    match s
    case ResponseInhibition => "responseInhibition"
    case WorkingMemory => "workingMemory"
    case EmotionalControl => "emotionalControl"
    case Flexibility => "flexibility"
    case SustainedAttention => "sustainedAttention"
    case TaskInitiation => "taskInitiation"
    case PlanningPrioritizing => "planningPrioritizing"
    case Organization => "organization"
    case TimeManagement => "timeManagement"
    case GoalDirectedPersistence => "goalDirectedPersistence"
    case Metacognition => "metacognition"
  }

  /** The field of the webhook's JSON object that feeds a column. */
  function FieldName(c: Column): string
    requires ValidColumn(c)
  {
    match c
    case When => "timestamp"
    case StudentName => "studentName"
    case StudentEmail => "studentEmail"
    case GradeLevel => "gradeLevel"
    case School => "school"
    case Response(k) => "q" + DecimalString(k)
    case SkillScore(s) => CamelKey(s)
    case Overall => "overallScore"
    case Strengths => "strengths"
    case Weaknesses => "weaknesses"
    case StrengthCount => "strengthCount"
    case WeaknessCount => "weaknessCount"
  }

  /** The skill whose camelCase field is `k`, if any. */
  function SkillOfCamelKey(k: string): (r: Option<Skill>)
    ensures r.Some? ==> CamelKey(r.value) == k
  {
    if k == "responseInhibition" then Some(ResponseInhibition)
    else if k == "workingMemory" then Some(WorkingMemory)
    else if k == "emotionalControl" then Some(EmotionalControl)
    else if k == "flexibility" then Some(Flexibility)
    else if k == "sustainedAttention" then Some(SustainedAttention)
    else if k == "taskInitiation" then Some(TaskInitiation)
    else if k == "planningPrioritizing" then Some(PlanningPrioritizing)
    else if k == "organization" then Some(Organization)
    else if k == "timeManagement" then Some(TimeManagement)
    else if k == "goalDirectedPersistence" then Some(GoalDirectedPersistence)
    else if k == "metacognition" then Some(Metacognition)
    else None
  }

  /** The column a JSON field feeds, if any. */
  function ColumnOfField(name: string): (r: Option<Column>)
    ensures r.Some? ==> ValidColumn(r.value)
  {
    if |name| > 1 && name[0] == 'q' && AllDigits(name[1..]) then
      var k := ParseDecimal(name[1..]);
      if 1 <= k <= QuestionCount && "q" + DecimalString(k) == name then Some(Response(k)) else None
    else if name == "timestamp" then Some(When)
    else if name == "studentName" then Some(StudentName)
    else if name == "studentEmail" then Some(StudentEmail)
    else if name == "gradeLevel" then Some(GradeLevel)
    else if name == "school" then Some(School)
    else if name == "overallScore" then Some(Overall)
    else if name == "strengths" then Some(Strengths)
    else if name == "weaknesses" then Some(Weaknesses)
    else if name == "strengthCount" then Some(StrengthCount)
    else if name == "weaknessCount" then Some(WeaknessCount)
    else match SkillOfCamelKey(name)
      case Some(s) => Some(SkillScore(s))
      case None => None
  }

  lemma CamelKeyRoundTrip(s: Skill)
    ensures SkillOfCamelKey(CamelKey(s)) == Some(s)
    ensures CamelKey(s)[0] != 'q'
  {
  }

  /** Field names identify columns: the field of a column leads back to it. */
  lemma FieldNameRoundTrip(c: Column)
    requires ValidColumn(c)
    ensures ColumnOfField(FieldName(c)) == Some(c)
  {
    var name := FieldName(c);
    if c.Response? {
      var d := DecimalString(c.id);
      assert name[1..] == d;
      ParseDecimalString(c.id);
    } else if c.SkillScore? {
      CamelKeyRoundTrip(c.skill);
    }
  }

  /** Different columns are fed by different fields. */
  lemma FieldNameInjective(c: Column, d: Column)
    requires ValidColumn(c) && ValidColumn(d)
    requires FieldName(c) == FieldName(d)
    ensures c == d
  {
    FieldNameRoundTrip(c);
    FieldNameRoundTrip(d);
  }

  /** The eleven camelCase score fields of the sheet records. */
  datatype SkillScores = SkillScores(
    responseInhibition: int, workingMemory: int, emotionalControl: int, flexibility: int,
    sustainedAttention: int, taskInitiation: int, planningPrioritizing: int, organization: int,
    timeManagement: int, goalDirectedPersistence: int, metacognition: int)

  /** The camelCase field of a skill. */
  function ScoreField(ss: SkillScores, s: Skill): int {
    match s
    case ResponseInhibition => ss.responseInhibition
    case WorkingMemory => ss.workingMemory
    case EmotionalControl => ss.emotionalControl
    case Flexibility => ss.flexibility
    case SustainedAttention => ss.sustainedAttention
    case TaskInitiation => ss.taskInitiation
    case PlanningPrioritizing => ss.planningPrioritizing
    case Organization => ss.organization
    case TimeManagement => ss.timeManagement
    case GoalDirectedPersistence => ss.goalDirectedPersistence
    case Metacognition => ss.metacognition
  }

  /** The camelCase copy of a snake_case score record, field by field. */
  function CopyScores(scores: CategoryScores): SkillScores
    requires Complete(scores)
  {
    SkillScores(
      scores[ResponseInhibition], scores[WorkingMemory], scores[EmotionalControl], scores[Flexibility],
      scores[SustainedAttention], scores[TaskInitiation], scores[PlanningPrioritizing], scores[Organization],
      scores[TimeManagement], scores[GoalDirectedPersistence], scores[Metacognition])
  }

  /** Each snake_case score lands unchanged in the camelCase field of the same skill. */
  lemma CopyScoresExact(scores: CategoryScores, s: Skill)
    requires Complete(scores)
    ensures ScoreField(CopyScores(scores), s) == scores[s]
  {
    match s
    case ResponseInhibition =>
    case WorkingMemory =>
    case EmotionalControl =>
    case Flexibility =>
    case SustainedAttention =>
    case TaskInitiation =>
    case PlanningPrioritizing =>
    case Organization =>
    case TimeManagement =>
    case GoalDirectedPersistence =>
    case Metacognition =>
  }

  /** `Math.round(sum / n)` for a positive count n: the nearest integer,
      halves rounded up. */
  function RoundedMean(sum: int, n: nat): (r: int)
    requires n > 0
    ensures 2 * n * r - n <= 2 * sum < 2 * n * r + n
  {
    (2 * sum + n) / (2 * n)
  }

  lemma MulAtLeast(m: nat, x: int)
    requires x >= 1
    ensures m * x >= m
  {
  }

  /** Only one integer is that close to the mean. */
  lemma RoundedMeanUnique(sum: int, n: nat, r: int)
    requires n > 0
    requires 2 * n * r - n <= 2 * sum < 2 * n * r + n
    ensures r == RoundedMean(sum, n)
  {
    var q := RoundedMean(sum, n);
    if r < q {
      MulAtLeast(2 * n, q - r);
    } else if r > q {
      MulAtLeast(2 * n, r - q);
    }
  }

  /** The rounded mean of n values in lo..hi stays in lo..hi. */
  lemma RoundedMeanBounds(sum: int, n: nat, lo: int, hi: int)
    requires n > 0
    requires n * lo <= sum <= n * hi
    ensures lo <= RoundedMean(sum, n) <= hi
  {
    var r := RoundedMean(sum, n);
    if r < lo {
      MulAtLeast(2 * n, lo - r);
    }
    if r > hi {
      MulAtLeast(2 * n, r - hi);
    }
  }
}
