/** The questionnaire: the eleven executive skills, the fixed catalog of 33
    questions (three consecutive items per skill), the 1-7 rating scale, and
    the per-skill category score of a set of responses. */
module Questionnaire {
  import opened JsValues

  /** The executive skills, in the order the source declares them. */
  datatype Skill =
    | ResponseInhibition
    | WorkingMemory
    | EmotionalControl
    | Flexibility
    | SustainedAttention
    | TaskInitiation
    | PlanningPrioritizing
    | Organization
    | TimeManagement
    | GoalDirectedPersistence
    | Metacognition

  const SkillCount: nat := 11

  /** Declaration order; also the key order of every record keyed by skill. */
  const AllSkills: seq<Skill> := [
    ResponseInhibition, WorkingMemory, EmotionalControl, Flexibility, SustainedAttention,
    TaskInitiation, PlanningPrioritizing, Organization, TimeManagement,
    GoalDirectedPersistence, Metacognition
  ]

  /** Position of a skill in declaration order. */
  function SkillIndex(s: Skill): (i: nat)
    ensures i < SkillCount && AllSkills[i] == s
  {
    match s
    case ResponseInhibition => 0
    case WorkingMemory => 1
    case EmotionalControl => 2
    case Flexibility => 3
    case SustainedAttention => 4
    case TaskInitiation => 5
    case PlanningPrioritizing => 6
    case Organization => 7
    case TimeManagement => 8
    case GoalDirectedPersistence => 9
    case Metacognition => 10
  }

  /** Declaration order lists every skill exactly once. */
  lemma AllSkillsIndexed(i: nat)
    requires i < SkillCount
    ensures SkillIndex(AllSkills[i]) == i
  {
  }

  /** The snake_case key of a skill (the `ExecutiveSkill` string). */
  function Key(s: Skill): string {
    match s
    case ResponseInhibition => "response_inhibition"
    case WorkingMemory => "working_memory"
    case EmotionalControl => "emotional_control"
    case Flexibility => "flexibility"
    case SustainedAttention => "sustained_attention"
    case TaskInitiation => "task_initiation"
    case PlanningPrioritizing => "planning_prioritizing"
    case Organization => "organization"
    case TimeManagement => "time_management"
    case GoalDirectedPersistence => "goal_directed_persistence"
    case Metacognition => "metacognition"
  }

  /** The display label of a skill (`executiveSkillLabels`). */
  function Label(s: Skill): string {
    match s
    case ResponseInhibition => "Response Inhibition"
    case WorkingMemory => "Working Memory"
    case EmotionalControl => "Emotional Control"
    case Flexibility => "Flexibility"
    case SustainedAttention => "Sustained Attention"
    case TaskInitiation => "Task Initiation"
    case PlanningPrioritizing => "Planning/Prioritizing"
    case Organization => "Organization"
    case TimeManagement => "Time Management"
    case GoalDirectedPersistence => "Goal-Directed Persistence"
    case Metacognition => "Metacognition"
  }

  /** The skill whose key is `k`, if any (`k as ExecutiveSkill` on a known key). */
  function SkillOfKey(k: string): (r: Option<Skill>)
    ensures r.Some? ==> Key(r.value) == k
  {
    if k == "response_inhibition" then Some(ResponseInhibition)
    else if k == "working_memory" then Some(WorkingMemory)
    else if k == "emotional_control" then Some(EmotionalControl)
    else if k == "flexibility" then Some(Flexibility)
    else if k == "sustained_attention" then Some(SustainedAttention)
    else if k == "task_initiation" then Some(TaskInitiation)
    else if k == "planning_prioritizing" then Some(PlanningPrioritizing)
    else if k == "organization" then Some(Organization)
    else if k == "time_management" then Some(TimeManagement)
    else if k == "goal_directed_persistence" then Some(GoalDirectedPersistence)
    else if k == "metacognition" then Some(Metacognition)
    else None
  }

  /** Each skill's key resolves to that skill, one case at a time. */
  lemma KeyResolves(s: Skill)
    ensures SkillOfKey(Key(s)) == Some(s)
  {
    match s
    case ResponseInhibition =>
    case WorkingMemory =>
    case EmotionalControl =>
    case Flexibility =>
    case SustainedAttention =>
    case TaskInitiation =>
    case PlanningPrioritizing =>
    case Organization =>
    case TimeManagement =>
    case GoalDirectedPersistence =>
    case Metacognition =>
  }

  /** Keys and skills are in one-to-one correspondence. */
  lemma KeyRoundTrip(s: Skill, k: string)
    ensures SkillOfKey(Key(s)) == Some(s)
    ensures SkillOfKey(k) == None <==> forall t: Skill :: Key(t) != k
  {
    KeyResolves(s);
    if SkillOfKey(k) == None {
      forall t: Skill ensures Key(t) != k {
        KeyResolves(t);
      }
    }
  }

  /** The skill whose label is `l`, if any. */
  function SkillOfLabel(l: string): (r: Option<Skill>)
    ensures r.Some? ==> Label(r.value) == l
  {
    if l == "Response Inhibition" then Some(ResponseInhibition)
    else if l == "Working Memory" then Some(WorkingMemory)
    else if l == "Emotional Control" then Some(EmotionalControl)
    else if l == "Flexibility" then Some(Flexibility)
    else if l == "Sustained Attention" then Some(SustainedAttention)
    else if l == "Task Initiation" then Some(TaskInitiation)
    else if l == "Planning/Prioritizing" then Some(PlanningPrioritizing)
    else if l == "Organization" then Some(Organization)
    else if l == "Time Management" then Some(TimeManagement)
    else if l == "Goal-Directed Persistence" then Some(GoalDirectedPersistence)
    else if l == "Metacognition" then Some(Metacognition)
    else None
  }

  /** Each skill's label resolves to that skill, one case at a time. */
  lemma LabelResolves(s: Skill)
    ensures SkillOfLabel(Label(s)) == Some(s)
  {
    match s
    case ResponseInhibition =>
    case WorkingMemory =>
    case EmotionalControl =>
    case Flexibility =>
    case SustainedAttention =>
    case TaskInitiation =>
    case PlanningPrioritizing =>
    case Organization =>
    case TimeManagement =>
    case GoalDirectedPersistence =>
    case Metacognition =>
  }

  /** Labels identify skills: relabelling can be undone, so it loses nothing. */
  lemma LabelRoundTrip(s: Skill, l: string)
    ensures SkillOfLabel(Label(s)) == Some(s)
    ensures SkillOfLabel(l) == None <==> forall t: Skill :: Label(t) != l
  {
    LabelResolves(s);
    if SkillOfLabel(l) == None {
      forall t: Skill ensures Label(t) != l {
        LabelResolves(t);
      }
    }
  }

  lemma LabelInjective(s: Skill, t: Skill)
    requires Label(s) == Label(t)
    ensures s == t
  {
    LabelRoundTrip(s, "");
    LabelRoundTrip(t, "");
  }

  /** One questionnaire item. */
  datatype Question = Question(id: int, text: string, category: Skill)

  /** The catalog, in presentation order. */
  const Questions: seq<Question> := [
      Question(1, "I act on impulse.", ResponseInhibition),
      Question(2, "I get in trouble for talking too much in class.", ResponseInhibition),
      Question(3, "I say things without thinking.", ResponseInhibition),
      Question(4, "I say, \"I'll do it later\" and then forget about it.", WorkingMemory),
      Question(5, "I forget homework assignments or forget to take home needed materials.", WorkingMemory),
      Question(6, "I lose or misplace belongings such as coats, gloves, sports equipment, etc.", WorkingMemory),
      Question(7, "I get annoyed when homework is too hard or confusing or takes too long to finish.", EmotionalControl),
      Question(8, "I have a short fuse\U{2014}am easily frustrated.", EmotionalControl),
      Question(9, "I get upset when things don't go as planned.", EmotionalControl),
      Question(10, "If the first solution to a problem doesn't work, I have trouble thinking of a different one.", Flexibility),
      Question(11, "I get upset when I have to change plans or routines.", Flexibility),
      Question(12, "I have problems with open-ended homework assignments (e.g., deciding what to write about when given a creative writing assignment).", Flexibility),
      Question(13, "I have difficulty paying attention and am easily distracted.", SustainedAttention),
      Question(14, "I run out of steam before finishing homework or other tasks.", SustainedAttention),
      Question(15, "I have problems sticking with schoolwork or chores until they are done.", SustainedAttention),
      Question(16, "I put off homework or chores until the last minute.", TaskInitiation),
      Question(17, "I have difficulty setting aside fun activities in order to start homework.", TaskInitiation),
      Question(18, "I need to be reminded to start chores or homework.", TaskInitiation),
      Question(19, "I have trouble planning for big assignments (knowing what to do first, second, etc.).", PlanningPrioritizing),
      Question(20, "I have difficulty setting priorities when I have a lot of things to do.", PlanningPrioritizing),
      Question(21, "I become overwhelmed by long-term projects or big assignments.", PlanningPrioritizing),
      Question(22, "My backpack and notebooks aren't organized.", Organization),
      Question(23, "My desk or workspace at home or school is a mess.", Organization),
      Question(24, "I have trouble keeping my bedroom or locker tidy.", Organization),
      Question(25, "I have a hard time estimating how long it takes to do something (such as homework).", TimeManagement),
      Question(26, "I often don't finish homework at night and may rush to get it done in school before class.", TimeManagement),
      Question(27, "I need a lot of time to get ready for things (e.g., appointments, school, changing classes).", TimeManagement),
      Question(28, "I can't seem to save up money for a desired object\U{2014}problems delaying gratification.", GoalDirectedPersistence),
      Question(29, "I don't see the point of earning good grades to achieve a long-term goal.", GoalDirectedPersistence),
      Question(30, "I prefer to live in the present.", GoalDirectedPersistence),
      Question(31, "I don't have very effective study strategies.", Metacognition),
      Question(32, "I tend not to check my work for mistakes even when the stakes are high.", Metacognition),
      Question(33, "I don't evaluate my performance and change tactics to increase success.", Metacognition)
  ]

  const QuestionCount: nat := 33

  /** Question k (1-based) has id k and belongs to skill number (k-1)/3. */
  lemma CatalogShape()
    ensures |Questions| == QuestionCount
    ensures forall k :: 0 <= k < QuestionCount ==>
      Questions[k].id == k + 1 && Questions[k].category == AllSkills[k / 3]
  {
  }

  /** A point of the rating scale. */
  datatype ScaleLabel = ScaleLabel(value: int, text: string)

  const ScaleLabels: seq<ScaleLabel> := [
    ScaleLabel(1, "Strongly disagree"),
    ScaleLabel(2, "Disagree"),
    ScaleLabel(3, "Tend to disagree"),
    ScaleLabel(4, "Neutral"),
    ScaleLabel(5, "Tend to agree"),
    ScaleLabel(6, "Agree"),
    ScaleLabel(7, "Strongly agree")
  ]

  /** The scale is the ratings 1 to 7 in order, each with its own label. */
  lemma ScaleShape()
    ensures |ScaleLabels| == 7
    ensures forall i :: 0 <= i < 7 ==> ScaleLabels[i].value == i + 1
    ensures forall i, j :: 0 <= i < j < 7 ==> ScaleLabels[i].text != ScaleLabels[j].text
  {
  }

  /** Responses keyed by question id. */
  type Responses = map<int, int>

  /** `responses[k] || 0`: a missing answer, and an answer of 0, both count as 0. */
  function Answer(r: Responses, k: int): int {
    if k in r then r[k] else 0
  }

  /** The answers to the three consecutive questions of skill number i. */
  function Triple(r: Responses, i: nat): int {
    Answer(r, 3 * i + 1) + Answer(r, 3 * i + 2) + Answer(r, 3 * i + 3)
  }

  lemma SkillCases(s: Skill)
    ensures s in AllSkills
  {
    assert s == AllSkills[SkillIndex(s)];
  }

  /** A score record holding every skill. */
  type CategoryScores = map<Skill, int>

  ghost predicate Complete(scores: CategoryScores) {
    forall s: Skill :: s in scores
  }

  /** `calculateCategoryScores`. */
  function CalculateCategoryScores(r: Responses): (scores: CategoryScores)
    ensures Complete(scores)
  {
    var scores := map[
      ResponseInhibition := Answer(r, 1) + Answer(r, 2) + Answer(r, 3),
      WorkingMemory := Answer(r, 4) + Answer(r, 5) + Answer(r, 6),
      EmotionalControl := Answer(r, 7) + Answer(r, 8) + Answer(r, 9),
      Flexibility := Answer(r, 10) + Answer(r, 11) + Answer(r, 12),
      SustainedAttention := Answer(r, 13) + Answer(r, 14) + Answer(r, 15),
      TaskInitiation := Answer(r, 16) + Answer(r, 17) + Answer(r, 18),
      PlanningPrioritizing := Answer(r, 19) + Answer(r, 20) + Answer(r, 21),
      Organization := Answer(r, 22) + Answer(r, 23) + Answer(r, 24),
      TimeManagement := Answer(r, 25) + Answer(r, 26) + Answer(r, 27),
      GoalDirectedPersistence := Answer(r, 28) + Answer(r, 29) + Answer(r, 30),
      Metacognition := Answer(r, 31) + Answer(r, 32) + Answer(r, 33)
    ];
    assert Complete(scores) by {
      forall s: Skill ensures s in scores {
        SkillCases(s);
      }
    }
    scores
  }

  /** The score of a skill is the sum of its three consecutive answers:
      skill number i owns questions 3i+1, 3i+2 and 3i+3. */
  lemma ScoreOf(r: Responses, s: Skill)
    ensures s in CalculateCategoryScores(r)
    ensures CalculateCategoryScores(r)[s] == Triple(r, SkillIndex(s))
  {
    match s
    case ResponseInhibition =>
    case WorkingMemory =>
    case EmotionalControl =>
    case Flexibility =>
    case SustainedAttention =>
    case TaskInitiation =>
    case PlanningPrioritizing =>
    case Organization =>
    case TimeManagement =>
    case GoalDirectedPersistence =>
    case Metacognition =>
  }

  /** Reading the catalog instead of the fixed layout: the answers to every
      question in `qs` that is tagged with skill `s`. */
  function CatalogSum(r: Responses, qs: seq<Question>, s: Skill): int {
    if qs == [] then 0
    else (if qs[0].category == s then Answer(r, qs[0].id) else 0) + CatalogSum(r, qs[1..], s)
  }

  /** A catalog laid out as three consecutive items per skill, in declaration order. */
  ghost predicate ThreePerSkill(qs: seq<Question>) {
    |qs| == QuestionCount &&
    forall k :: 0 <= k < QuestionCount ==>
      qs[k].id == k + 1 && 3 * SkillIndex(qs[k].category) <= k < 3 * SkillIndex(qs[k].category) + 3
  }

  /** Three leading items of skill number i contribute that skill's triple. */
  lemma CatalogSumStep(r: Responses, q: seq<Question>, s: Skill, i: nat)
    requires |q| >= 3
    requires q[0].id == 3 * i + 1 && SkillIndex(q[0].category) == i
    requires q[1].id == 3 * i + 2 && SkillIndex(q[1].category) == i
    requires q[2].id == 3 * i + 3 && SkillIndex(q[2].category) == i
    ensures CatalogSum(r, q, s) == (if i == SkillIndex(s) then Triple(r, i) else 0) + CatalogSum(r, q[3..], s)
  {
    assert q[1..][1..][1..] == q[3..];
    var mine := i == SkillIndex(s);
    assert mine <==> q[0].category == s;
    var c3 := CatalogSum(r, q[1..][1..], s);
    assert c3 == (if mine then Answer(r, 3 * i + 3) else 0) + CatalogSum(r, q[3..], s);
    var c2 := CatalogSum(r, q[1..], s);
    assert c2 == (if mine then Answer(r, 3 * i + 2) else 0) + c3;
  }

  lemma {:induction false} CatalogSumFrom(r: Responses, qs: seq<Question>, s: Skill, i: nat)
    requires ThreePerSkill(qs) && i <= SkillCount
    ensures CatalogSum(r, qs[3 * i..], s) == if i <= SkillIndex(s) then Triple(r, SkillIndex(s)) else 0
    decreases SkillCount - i
  {
    if i < SkillCount {
      CatalogSumFrom(r, qs, s, i + 1);
      var q := qs[3 * i..];
      assert q[3..] == qs[3 * (i + 1)..];
      assert q[0] == qs[3 * i] && q[1] == qs[3 * i + 1] && q[2] == qs[3 * i + 2];
      CatalogSumStep(r, q, s, i);
    }
  }

  /** The fixed layout of `calculateCategoryScores` agrees with the catalog:
      each category score is the sum of the answers to the questions the
      catalog tags with that category. */
  lemma ScoresFollowCatalog(r: Responses, s: Skill)
    ensures CalculateCategoryScores(r)[s] == CatalogSum(r, Questions, s)
  {
    ScoreOf(r, s);
    CatalogShape();
    forall k | 0 <= k < QuestionCount
      ensures 3 * SkillIndex(Questions[k].category) <= k < 3 * SkillIndex(Questions[k].category) + 3
    {
      AllSkillsIndexed(k / 3);
    }
    CatalogSumFrom(r, Questions, s, 0);
    assert Questions[3 * 0..] == Questions;
  }

  /** With every answer on the 1-7 scale, every category score is in 3-21. */
  lemma ScoreBounds(r: Responses)
    requires forall k :: 1 <= k <= QuestionCount ==> 1 <= Answer(r, k) <= 7
    ensures forall s: Skill :: s in CalculateCategoryScores(r) && 3 <= CalculateCategoryScores(r)[s] <= 21
  {
    forall s: Skill ensures s in CalculateCategoryScores(r) && 3 <= CalculateCategoryScores(r)[s] <= 21 {
      ScoreOf(r, s);
      var i := SkillIndex(s);
      assert 1 <= 3 * i + 1 && 3 * i + 3 <= QuestionCount;
    }
  }

  /** Sum of the answers to questions 1..n. */
  function SumAnswers(r: Responses, n: nat): int {
    if n == 0 then 0 else SumAnswers(r, n - 1) + Answer(r, n)
  }

  /** Sum of the scores of `skills` (`Object.values(scores).reduce(+)` over all of them). */
  function SumScores(scores: CategoryScores, skills: seq<Skill>): int
    requires Complete(scores)
  {
    if skills == [] then 0
    else SumScores(scores, skills[..|skills| - 1]) + scores[skills[|skills| - 1]]
  }

  lemma {:induction false} SumScoresPrefix(r: Responses, i: nat)
    requires i <= SkillCount
    ensures SumScores(CalculateCategoryScores(r), AllSkills[..i]) == SumAnswers(r, 3 * i)
  {
    if i > 0 {
      SumScoresPrefix(r, i - 1);
      assert AllSkills[..i][..i - 1] == AllSkills[..i - 1];
      var j := 3 * (i - 1);
      assert 3 * i == j + 3;
      assert SumAnswers(r, j + 3) == SumAnswers(r, j + 2) + Answer(r, j + 3);
      assert SumAnswers(r, j + 2) == SumAnswers(r, j + 1) + Answer(r, j + 2);
      assert SumAnswers(r, j + 1) == SumAnswers(r, j) + Answer(r, j + 1);
      AllSkillsIndexed(i - 1);
      ScoreOf(r, AllSkills[i - 1]);
    }
  }

  /** Grouping preserves the total: the eleven category scores add up to
      the sum of the 33 answers. */
  lemma ScoreTotal(r: Responses)
    ensures SumScores(CalculateCategoryScores(r), AllSkills) == SumAnswers(r, QuestionCount)
  {
    SumScoresPrefix(r, SkillCount);
    assert AllSkills[..SkillCount] == AllSkills;
  }
}
